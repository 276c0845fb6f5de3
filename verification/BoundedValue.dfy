/**
 The bounded traversal of untrusted JSON: an explicit stack that must accept exactly the
 values a recursive definition accepts, after looking at a bounded number of nodes.
 */
module BoundedValue {

  /** Text is a sequence of code points; Python strings may contain lone surrogates. */
  type Text = seq<nat>

  datatype Number = Finite | NonFinite

  datatype Json =
    | Scalar
    | Float(number: Number)
    | Str(text: Text)
    | Arr(items: seq<Json>)
    | Obj(keys: seq<Text>, values: seq<Json>)

  const MAX_TEXT := 65536

  // ---------------------------------------------------------------------------------------
  // UTF-8
  // ---------------------------------------------------------------------------------------

  predicate IsSurrogate(point: nat) { 0xD800 <= point <= 0xDFFF }

  predicate Encodable(text: Text) {
    forall i :: 0 <= i < |text| ==> !IsSurrogate(text[i])
  }

  function PointBytes(point: nat): nat {
    if point < 0x80 then 1 else if point < 0x800 then 2 else if point < 0x10000 then 3 else 4
  }

  function TextBytes(text: Text): nat {
    if text == [] then 0 else TextBytes(text[..|text| - 1]) + PointBytes(text[|text| - 1])
  }

  /** The UTF-8 encoding of a code point: a lead byte, and six bits in each byte that follows it. */
  function Utf8(point: nat): seq<int> {
    var high := point / 64;
    var higher := high / 64;
    if point < 0x80 then [point]
    else if point < 0x800 then [0xC0 + high, 0x80 + point % 64]
    else if point < 0x10000 then [0xE0 + higher, 0x80 + high % 64, 0x80 + point % 64]
    else [0xF0 + higher / 64, 0x80 + higher % 64, 0x80 + high % 64, 0x80 + point % 64]
  }

  /** Reads one code point back from its bytes. */
  function FromUtf8(bytes: seq<int>): int
    requires 1 <= |bytes| <= 4
  {
    match |bytes|
    case 1 => bytes[0]
    case 2 => 64 * (bytes[0] - 0xC0) + (bytes[1] - 0x80)
    case 3 => 64 * (64 * (bytes[0] - 0xE0) + (bytes[1] - 0x80)) + (bytes[2] - 0x80)
    case 4 => 64 * (64 * (64 * (bytes[0] - 0xF0) + (bytes[1] - 0x80)) + (bytes[2] - 0x80)) + (bytes[3] - 0x80)
  }

  /** The encoding of a code point is made of bytes, can be read back, and is as long as it is counted. */
  lemma Utf8RoundTrip(point: nat)
    requires point <= 0x10FFFF
    ensures |Utf8(point)| == PointBytes(point) && FromUtf8(Utf8(point)) == point
    ensures forall i :: 0 <= i < |Utf8(point)| ==> 0 <= Utf8(point)[i] <= 0xFF
  {
  }

  function Encoded(text: Text): seq<int> {
    if text == [] then [] else Encoded(text[..|text| - 1]) + Utf8(text[|text| - 1])
  }

  /** What is counted is the length of the encoded text. */
  lemma {:induction false} TextBytesAreEncoded(text: Text)
    ensures TextBytes(text) == |Encoded(text)|
  {
    if text != [] {
      TextBytesAreEncoded(text[..|text| - 1]);
    }
  }

  function KeyBytes(keys: seq<Text>): nat {
    if keys == [] then 0 else TextBytes(keys[0]) + KeyBytes(keys[1..])
  }

  predicate AllEncodable(keys: seq<Text>) {
    forall i :: 0 <= i < |keys| ==> Encodable(keys[i])
  }

  // ---------------------------------------------------------------------------------------
  // The recursive definition
  // ---------------------------------------------------------------------------------------

  function Children(v: Json): seq<Json> {
    match v
    case Arr(items) => items
    case Obj(_, values) => values
    case _ => []
  }

  /** Bytes of text held by the node itself. */
  function OwnBytes(v: Json): nat {
    match v
    case Str(text) => TextBytes(text)
    case Obj(keys, _) => KeyBytes(keys)
    case _ => 0
  }

  /** The node itself is neither unencodable text nor a non-finite float. */
  predicate OwnOk(v: Json) {
    match v
    case Str(text) => Encodable(text)
    case Obj(keys, _) => AllEncodable(keys)
    case Float(number) => number.Finite?
    case _ => true
  }

  function Nodes(v: Json): nat
    decreases v, 1
  {
    1 + NodesOf(v, Children(v))
  }

  function NodesOf(parent: Json, vs: seq<Json>): nat
    requires forall i :: 0 <= i < |vs| ==> vs[i] < parent
    decreases parent, 0, |vs|
  {
    if vs == [] then 0 else Nodes(vs[0]) + NodesOf(parent, vs[1..])
  }

  function Bytes(v: Json): nat
    decreases v, 1
  {
    OwnBytes(v) + BytesOf(v, Children(v))
  }

  function BytesOf(parent: Json, vs: seq<Json>): nat
    requires forall i :: 0 <= i < |vs| ==> vs[i] < parent
    decreases parent, 0, |vs|
  {
    if vs == [] then 0 else Bytes(vs[0]) + BytesOf(parent, vs[1..])
  }

  /** No node lies more than `depth` levels below the root. */
  predicate Within(v: Json, depth: int)
    decreases v
  {
    depth >= 0 && forall i :: 0 <= i < |Children(v)| ==> Within(Children(v)[i], depth - 1)
  }

  predicate Clean(v: Json)
    decreases v
  {
    OwnOk(v) && forall i :: 0 <= i < |Children(v)| ==> Clean(Children(v)[i])
  }

  /** What the traversal is for. */
  predicate Bounded(v: Json, maxNodes: int, maxDepth: int) {
    Nodes(v) <= maxNodes && Within(v, maxDepth) && Bytes(v) <= MAX_TEXT && Clean(v)
  }

  // ---------------------------------------------------------------------------------------
  // Sums over the stack
  // ---------------------------------------------------------------------------------------

  datatype Pending = Pending(value: Json, depth: int)

  function StackNodes(stack: seq<Pending>): nat {
    if stack == [] then 0 else StackNodes(stack[..|stack| - 1]) + Nodes(stack[|stack| - 1].value)
  }

  function StackBytes(stack: seq<Pending>): nat {
    if stack == [] then 0 else StackBytes(stack[..|stack| - 1]) + Bytes(stack[|stack| - 1].value)
  }

  predicate ItemOk(p: Pending, maxDepth: int) {
    Within(p.value, maxDepth - p.depth) && Clean(p.value)
  }

  predicate StackOk(stack: seq<Pending>, maxDepth: int) {
    forall i :: 0 <= i < |stack| ==> ItemOk(stack[i], maxDepth)
  }

  lemma StackOkConcat(a: seq<Pending>, b: seq<Pending>, maxDepth: int)
    ensures StackOk(a + b, maxDepth) <==> StackOk(a, maxDepth) && StackOk(b, maxDepth)
  {
    var ab := a + b;
    assert forall i :: 0 <= i < |a| ==> ab[i] == a[i];
    assert forall i :: 0 <= i < |b| ==> ab[|a| + i] == b[i];
  }

  lemma ItemOkExpands(p: Pending, maxDepth: int)
    ensures ItemOk(p, maxDepth) <==>
              p.depth <= maxDepth && OwnOk(p.value) && StackOk(Pushed(Children(p.value), p.depth + 1), maxDepth)
  {
  }

  function Pushed(vs: seq<Json>, depth: int): (stack: seq<Pending>)
    ensures |stack| == |vs| && forall i :: 0 <= i < |vs| ==> stack[i] == Pending(vs[i], depth)
  {
    seq(|vs|, i requires 0 <= i < |vs| => Pending(vs[i], depth))
  }

  lemma {:induction false} PushedSums(parent: Json, vs: seq<Json>, below: seq<Pending>, depth: int)
    requires forall i :: 0 <= i < |vs| ==> vs[i] < parent
    ensures StackNodes(below + Pushed(vs, depth)) == StackNodes(below) + NodesOf(parent, vs)
    ensures StackBytes(below + Pushed(vs, depth)) == StackBytes(below) + BytesOf(parent, vs)
    decreases |vs|
  {
    if vs == [] {
      assert below + Pushed(vs, depth) == below;
    } else {
      var one := below + [Pending(vs[0], depth)];
      assert one[..|below|] == below;
      assert below + Pushed(vs, depth) == one + Pushed(vs[1..], depth);
      PushedSums(parent, vs[1..], one, depth);
    }
  }

  lemma {:induction false} StackLongEnough(stack: seq<Pending>)
    ensures StackNodes(stack) >= |stack|
  {
    if stack != [] {
      StackLongEnough(stack[..|stack| - 1]);
    }
  }

  /** Replacing the top of the stack by its children changes neither totals nor what is to check. */
  lemma Expand(stack: seq<Pending>, maxDepth: int)
    requires stack != []
    ensures var top := stack[|stack| - 1];
            var rest := stack[..|stack| - 1];
            var next := rest + Pushed(Children(top.value), top.depth + 1);
            && StackNodes(stack) == 1 + StackNodes(next)
            && StackBytes(stack) == OwnBytes(top.value) + StackBytes(next)
            && (StackOk(stack, maxDepth) <==> StackOk(next, maxDepth) && top.depth <= maxDepth && OwnOk(top.value))
  {
    var top := stack[|stack| - 1];
    var rest := stack[..|stack| - 1];
    PushedSums(top.value, Children(top.value), rest, top.depth + 1);
    assert stack == rest + [top];
    StackOkConcat(rest, [top], maxDepth);
    StackOkConcat(rest, Pushed(Children(top.value), top.depth + 1), maxDepth);
    ItemOkExpands(top, maxDepth);
  }

  // ---------------------------------------------------------------------------------------
  // The traversal
  // ---------------------------------------------------------------------------------------

  /** What has been counted and what is still on the stack add up to the whole value. */
  ghost predicate Tracks(value: Json, maxDepth: int, nodes: nat, size: nat, pending: seq<Pending>) {
    && nodes + StackNodes(pending) == Nodes(value)
    && size + StackBytes(pending) == Bytes(value)
    && (StackOk(pending, maxDepth) <==> Within(value, maxDepth) && Clean(value))
  }

  function Top(pending: seq<Pending>): Pending
    requires pending != []
  {
    pending[|pending| - 1]
  }

  function Rest(pending: seq<Pending>): seq<Pending>
    requires pending != []
  {
    pending[..|pending| - 1]
  }

  function Replaced(pending: seq<Pending>): seq<Pending>
    requires pending != []
  {
    Rest(pending) + Pushed(Children(Top(pending).value), Top(pending).depth + 1)
  }

  lemma StartTracks(value: Json, maxDepth: int)
    ensures Tracks(value, maxDepth, 0, 0, [Pending(value, 0)])
  {
  }

  lemma VisitTracks(value: Json, maxDepth: int, nodes: nat, size: nat, pending: seq<Pending>)
    requires Tracks(value, maxDepth, nodes, size, pending) && pending != []
    requires Top(pending).depth <= maxDepth && OwnOk(Top(pending).value)
    ensures Tracks(value, maxDepth, nodes + 1, size + OwnBytes(Top(pending).value), Replaced(pending))
    ensures StackNodes(Replaced(pending)) < StackNodes(pending)
  {
    Expand(pending, maxDepth);
  }

  /** A node that is too deep or unclean, or more nodes than allowed, condemn the value. */
  lemma Condemned(value: Json, maxNodes: int, maxDepth: int, nodes: nat, size: nat, pending: seq<Pending>)
    requires Tracks(value, maxDepth, nodes, size, pending)
    requires
      || nodes + |pending| > maxNodes
      || size > MAX_TEXT
      || (pending != [] && (Top(pending).depth > maxDepth || !OwnOk(Top(pending).value)))
      || (pending != [] && |Children(Top(pending).value)| > maxNodes)
    ensures !Bounded(value, maxNodes, maxDepth)
  {
    StackLongEnough(pending);
    if pending != [] {
      Expand(pending, maxDepth);
      StackLongEnough(Replaced(pending));
    }
  }

  /** One round of the loop: pops an item, checks it and pushes its children, or rejects the value. */
  method Visit(ghost value: Json, maxNodes: int, maxDepth: int, nodes: nat, size: nat, pending: seq<Pending>)
    returns (ok: bool, next: seq<Pending>, bytes: nat)
    requires Tracks(value, maxDepth, nodes, size, pending) && pending != []
    ensures !ok ==> !Bounded(value, maxNodes, maxDepth)
    ensures ok ==> Tracks(value, maxDepth, nodes + 1, bytes, next)
    ensures ok ==> nodes + 1 <= maxNodes && bytes <= MAX_TEXT && StackNodes(next) < StackNodes(pending)
  {
    next, bytes := Rest(pending), size;
    var item, depth := Top(pending).value, Top(pending).depth;
    if nodes + 1 > maxNodes || depth > maxDepth {
      Condemned(value, maxNodes, maxDepth, nodes, size, pending);
      return false, next, bytes;
    }
    var fine, children, own := Inspect(item, maxNodes);
    if !fine {
      Condemned(value, maxNodes, maxDepth, nodes, size, pending);
      return false, next, bytes;
    }
    VisitTracks(value, maxDepth, nodes, size, pending);
    next := next + Pushed(children, depth + 1);
    bytes := bytes + own;
    if bytes > MAX_TEXT || |next| > maxNodes {
      Condemned(value, maxNodes, maxDepth, nodes + 1, bytes, next);
      return false, next, bytes;
    }
    ok := true;
  }

  /**
   `bounded_value` with its early exits. It accepts exactly the bounded values: the checks on
   container and stack lengths reject nothing else. Whatever the input, it pops at most one item
   more than it may count.
   */
  method CheckBounded(value: Json, maxNodes: int, maxDepth: int) returns (accepted: bool, pops: nat)
    ensures accepted <==> Bounded(value, maxNodes, maxDepth)
    ensures pops <= 1 || pops <= maxNodes + 1
  {
    var pending := [Pending(value, 0)];
    var nodes: nat, size: nat := 0, 0;
    StartTracks(value, maxDepth);
    while pending != []
      invariant Tracks(value, maxDepth, nodes, size, pending)
      invariant nodes <= maxNodes || nodes == 0
      invariant size <= MAX_TEXT
      invariant pending == [] ==> nodes > 0
      decreases StackNodes(pending)
    {
      var ok, next, bytes := Visit(value, maxNodes, maxDepth, nodes, size, pending);
      nodes := nodes + 1;
      if !ok {
        return false, nodes;
      }
      pending, size := next, bytes;
    }
    return true, nodes;
  }

  /** The type switch of the loop's body: what to push, what to count, or the error. */
  method Inspect(item: Json, maxNodes: int) returns (ok: bool, children: seq<Json>, bytes: nat)
    ensures maxNodes >= 0 ==> (ok <==> OwnOk(item) && |Children(item)| <= maxNodes)
    ensures ok ==> children == Children(item) && bytes == OwnBytes(item)
  {
    ok, children, bytes := true, [], 0;
    match item {
      case Obj(keys, values) =>
        if |values| > maxNodes {
          return false, [], 0;
        }
        children := values;
        if !AllEncodable(keys) {
          return false, [], 0;
        }
        bytes := KeyBytes(keys);
      case Arr(items) =>
        if |items| > maxNodes {
          return false, [], 0;
        }
        children := items;
      case Str(text) =>
        if !Encodable(text) {
          return false, [], 0;
        }
        bytes := TextBytes(text);
      case Float(number) => ok := number.Finite?;
      case Scalar =>
    }
  }
}
