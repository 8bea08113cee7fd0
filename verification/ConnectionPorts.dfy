/**
 What becomes of each part of a connection, and of each part of a whole graph,
 said on the submitted values (src/runtime/gr4_runtime_manager.cpp:460-520).
 */
module ConnectionPorts {
  import opened Integers
  import opened Wrappers
  import opened PropertyValues
  import opened SessionStream
  import opened GraphRewrite
  import opened Text

  // ----------------------------------------------------------------- tokens

  /** A port index, if it fits in 64 signed bits. */
  function PortIndex(n: int): Result<Value, GraphError>
    requires n >= 0
  {
    if n <= INT64_MAX then Ok(Int(n)) else Err(PortOutOfRange)
  }

  /** The port tokens graphs are written with. */
  lemma PortTable(n: nat)
    ensures NormalizePort("in") == NormalizePort("out") == Ok(Int(0))
    ensures NormalizePort(Decimal(n)) == NormalizePort("out" + Decimal(n)) == PortIndex(n)
    ensures NormalizePort("in" + Decimal(n)) == Ok(Value.Text("in" + Decimal(n)))
  {
    DecimalValue(n);
    NumberedPorts(Decimal(n));
    assert Decimal(n)[0] != 'i' && Decimal(n)[0] != 'o';
  }

  lemma DigitsNotNegative(digits: string)
    requires AllDigits(digits)
    ensures Positional(digits) >= 0
  {
    NumeralIsPositional(digits);
  }

  /** Digits after the last `t`, in a token that begins like a port. */
  ghost predicate IsNumbered(token: string, digits: string) {
    && ("in" <= token || "out" <= token) && AllDigits(digits)
    && exists head: string :: token == head + "t" + digits
  }

  lemma LastT(head: string, digits: string)
    requires AllDigits(digits)
    ensures LastIndexOf(head + "t" + digits, 't') == |head|
    ensures (head + "t" + digits)[|head| + 1..] == digits && !AllDigits(head + "t" + digits)
  {
    var token := head + "t" + digits;
    assert token[|head|] == 't';
    forall i | |head| < i < |token| ensures token[i] != 't' {
      assert token[i] == digits[i - |head| - 1];
    }
  }

  lemma CutAtLastT(token: string)
    requires LastIndexOf(token, 't') >= 0
    ensures var k := LastIndexOf(token, 't'); token == token[..k] + "t" + token[k + 1..]
  {
  }

  lemma NoLastT(token: string)
    requires LastIndexOf(token, 't') == -1
    ensures token[LastIndexOf(token, 't') + 1..] == token
  {
  }

  /** Every token that converts, with what it converts to. */
  lemma ConvertedTokens(token: string, digits: string)
    ensures AllDigits(token) ==>
      Positional(token) >= 0 && NormalizePort(token) == PortIndex(Positional(token))
    ensures IsNumbered(token, digits) ==>
      Positional(digits) >= 0 && NormalizePort(token) == PortIndex(Positional(digits))
  {
    if AllDigits(token) {
      DigitsNotNegative(token);
      NumeralIsPositional(token);
      assert token[0] != 'i' && token[0] != 'o';
    }
    if IsNumbered(token, digits) {
      DigitsNotNegative(digits);
      NumeralIsPositional(digits);
      var head: string :| token == head + "t" + digits;
      LastT(head, digits);
      assert token[|token| - 1] == digits[|digits| - 1];
    }
  }

  /** The token is a port number in one of the forms that convert. */
  ghost predicate IsPortNumber(token: string) {
    token == "in" || token == "out" || AllDigits(token) || exists digits :: IsNumbered(token, digits)
  }

  lemma NumberIsNoText(token: string)
    requires IsPortNumber(token)
    ensures NormalizePort(token) != Ok(Value.Text(token))
  {
    hide NormalizePort, IsNumbered;
    PortTable(0);
    if digits :| IsNumbered(token, digits) {
      ConvertedTokens(token, digits);
    } else if AllDigits(token) {
      ConvertedTokens(token, "");
    }
  }

  lemma OtherIsText(token: string)
    requires !IsPortNumber(token)
    ensures NormalizePort(token) == Ok(Value.Text(token))
  {
    if "in" <= token || "out" <= token {
      var k := LastIndexOf(token, 't');
      if k >= 0 {
        CutAtLastT(token);
        assert AllDigits(token[k + 1..]) ==> IsNumbered(token, token[k + 1..]);
      } else {
        NoLastT(token);
      }
    }
  }

  /** Every other token keeps its text, and these are all of them. */
  lemma TextTokensIff(token: string)
    ensures NormalizePort(token) == Ok(Value.Text(token)) <==> !IsPortNumber(token)
  {
    hide NormalizePort, IsPortNumber;
    if IsPortNumber(token) {
      NumberIsNoText(token);
    } else {
      OtherIsText(token);
    }
  }

  // ------------------------------------------------------------ connections

  /** How an element at a port place of a connection list is rewritten. */
  predicate PortRewritten(before: Value, after: Value) {
    if before.Text? then NormalizePort(before.text) == Ok(after) else after == before
  }

  predicate PortConverts(element: Value) {
    element.Text? ==> NormalizePort(element.text).Ok?
  }

  /** The list form: the second and fourth elements are ports, everything else stays. */
  lemma ListConnection(items: seq<Value>)
    requires |items| >= 4
    ensures var result := RewrittenConnection(Tensor(items));
      && (result.Ok? <==> PortConverts(items[1]) && PortConverts(items[3]))
      && (result.Err? ==> result.error == PortOutOfRange)
      && (result.Ok? ==>
            && result.value.Tensor? && |result.value.items| == |items|
            && PortRewritten(items[1], result.value.items[1]) && PortRewritten(items[3], result.value.items[3])
            && forall i :: 0 <= i < |items| && i != 1 && i != 3 ==> result.value.items[i] == items[i])
  {
    hide NormalizePort;
  }

  /** The map form has these four texts. */
  predicate IsMapForm(entries: PropertyMap, source: string, sourcePort: string, dest: string, destPort: string) {
    && "source_block" in entries && entries["source_block"] == Value.Text(source)
    && "source_port_token" in entries && entries["source_port_token"] == Value.Text(sourcePort)
    && "dest_block" in entries && entries["dest_block"] == Value.Text(dest)
    && "dest_port_token" in entries && entries["dest_port_token"] == Value.Text(destPort)
  }

  /** It becomes a list of source, source port, destination and destination port. */
  lemma MapConnection(entries: PropertyMap, source: string, sourcePort: string, dest: string, destPort: string)
    requires IsMapForm(entries, source, sourcePort, dest, destPort)
    ensures var result := RewrittenConnection(Map(entries));
      var from, to := NormalizePort(sourcePort), NormalizePort(destPort);
      if from.Ok? && to.Ok? then result == Ok(Tensor([Value.Text(source), from.value, Value.Text(dest), to.value]))
      else result == Err(PortOutOfRange)
  {
    hide NormalizePort;
  }

  /** Anything else is left alone. */
  lemma OtherConnection(connection: Value)
    requires connection.Tensor? ==> |connection.items| < 4
    requires connection.Map? ==> forall a, b, c, d :: !IsMapForm(connection.entries, a, b, c, d)
    ensures RewrittenConnection(connection) == Ok(connection)
  {
    if IsConnectionMap(connection) {
      var entries := connection.entries;
      assert IsMapForm(entries, entries["source_block"].text, entries["source_port_token"].text,
                       entries["dest_block"].text, entries["dest_port_token"].text);
    }
  }

  /** A connection between plain ports, in both forms. */
  lemma PlainConnectionExample(source: string, dest: string)
    ensures var wired := Tensor([Value.Text(source), Int(0), Value.Text(dest), Int(0)]);
      && RewrittenConnection(
           Tensor([Value.Text(source), Value.Text("out"), Value.Text(dest), Value.Text("in")])) == Ok(wired)
      && RewrittenConnection(Map(map["source_block" := Value.Text(source), "source_port_token" := Value.Text("out"),
                                     "dest_block" := Value.Text(dest), "dest_port_token" := Value.Text("in")]))
           == Ok(wired)
  {
    hide NormalizePort, RewrittenConnection;
    PortTable(0);
    var items := [Value.Text(source), Value.Text("out"), Value.Text(dest), Value.Text("in")];
    ListConnection(items);
    assert RewrittenConnection(Tensor(items)).value.items
      == [Value.Text(source), Int(0), Value.Text(dest), Int(0)];
    var entries: PropertyMap := map["source_block" := Value.Text(source), "source_port_token" := Value.Text("out"),
                                    "dest_block" := Value.Text(dest), "dest_port_token" := Value.Text("in")];
    MapConnection(entries, source, "out", dest, "in");
  }

  // ----------------------------------------------------------- whole graphs

  /** A list of values, each made from the one at its place. */
  ghost predicate EachRewritten(before: seq<Value>, after: seq<Value>) {
    |after| == |before| && forall i :: 0 <= i < |before| ==> RewrittenConnection(before[i]) == Ok(after[i])
  }

  /** The graph holds a list under this key. */
  predicate ListUnder(root: PropertyMap, key: string, items: seq<Value>) {
    key in root && root[key] == Tensor(items)
  }

  /**
   A graph that is loaded has every key of the submitted one. Its connections
   are rewritten one by one in their order, and nothing outside `blocks` and
   `connections` is different.
   */
  lemma RewrittenGraphParts(root: PropertyMap, bindings: seq<StreamBinding>)
    requires RewrittenGraph(root, bindings).Ok?
    ensures var loaded := RewrittenGraph(root, bindings).value;
      && loaded.Keys == root.Keys
      && (forall key :: key in root && key != "blocks" && key != "connections" ==> loaded[key] == root[key])
      && (forall items :: ListUnder(root, "connections", items) ==>
            exists items' :: ListUnder(loaded, "connections", items') && EachRewritten(items, items'))
      && ("connections" in root && !root["connections"].Tensor? ==> loaded["connections"] == root["connections"])
      && ("blocks" in root && !root["blocks"].Tensor? ==> loaded["blocks"] == root["blocks"])
  {
    hide RewrittenConnection, RewrittenBlock, InjectedBlock, InjectedIds;
    var loaded := RewrittenGraph(root, bindings).value;
    forall items | ListUnder(root, "connections", items)
      ensures exists items' :: ListUnder(loaded, "connections", items') && EachRewritten(items, items')
    {
      assert ListUnder(loaded, "connections", RewrittenConnections(items));
      assert EachRewritten(items, RewrittenConnections(items));
    }
  }

  /** It is refused for a port out of range exactly when one of its connections is. */
  lemma RefusedForPortIff(root: PropertyMap, bindings: seq<StreamBinding>)
    ensures RewrittenGraph(root, bindings) == Err(PortOutOfRange) <==>
      exists items, i :: ListUnder(root, "connections", items) && 0 <= i < |items| && RewrittenConnection(items[i]).Err?
  {
    hide RewrittenConnection, RewrittenBlock, InjectedBlock, InjectedIds;
    if ConnectionList(root).Some? {
      assert ListUnder(root, "connections", ConnectionList(root).value);
    }
  }
}
