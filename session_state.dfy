/**
 * Per-conversation session state: the gate cursor, the traversal order, the
 * accumulated product configuration and three fields that are only carried
 * through. The record is serialized to and from a JSON object.
 */
module SessionStates {
  import opened Wrappers
  import opened Json
  import opened Config
  import opened GateModels
  import opened GateRegistry

  /** The session's own default order. It holds 17, which is not a registry key. */
  const DefaultSessionSequence: seq<int> := [1, 2, 17, 3, 4, 5, 6, 7, 8, 9, 10, 11, 12, 13, 14, 15, 16]

  /** The value of a session: the fields `to_dict` writes out. */
  datatype SessionData = SessionData(
    currentGate: int,
    gateSequence: seq<int>,
    productConfig: map<string, Value>,
    lineItems: Value,
    subtotalsByGate: Value,
    flags: Value)

  /** A fresh session: gate 1, the session's default order, everything else empty. */
  function DefaultSession(): SessionData {
    SessionData(1, DefaultSessionSequence, map[], Arr([]), Obj(map[]), Arr([]))
  }

  function EncodeInts(s: seq<int>): (r: seq<Value>)
    ensures |r| == |s|
  {
    seq(|s|, i requires 0 <= i < |s| => Num(s[i]))
  }

  /** A JSON list of integers, or None when some element is not an integer. */
  function DecodeInts(items: seq<Value>): Option<seq<int>> {
    if items == [] then Some([])
    else if !items[0].Num? then None
    else match DecodeInts(items[1..])
      case None => None
      case Some(rest) => Some([items[0].n] + rest)
  }

  lemma {:induction false} DecodeEncodeInts(s: seq<int>)
    ensures DecodeInts(EncodeInts(s)) == Some(s)
  {
    if s != [] {
      assert EncodeInts(s)[1..] == EncodeInts(s[1..]);
      DecodeEncodeInts(s[1..]);
      assert [s[0]] + s[1..] == s;
    }
  }

  /** The six keys `to_dict` writes. */
  const SessionKeys: set<string> :=
    {"current_gate", "gate_sequence", "product_config", "line_items", "subtotals_by_gate", "flags"}

  /** `to_dict()`: a dict with exactly the six session keys, the order as a JSON list of integers. */
  function ToDict(d: SessionData): (r: Value)
    ensures r.Obj? && r.fields.Keys == SessionKeys
    ensures r.fields["gate_sequence"] == Arr(EncodeInts(d.gateSequence))
  {
    Obj(map[
      "current_gate" := Num(d.currentGate),
      "gate_sequence" := Arr(EncodeInts(d.gateSequence)),
      "product_config" := Obj(d.productConfig),
      "line_items" := d.lineItems,
      "subtotals_by_gate" := d.subtotalsByGate,
      "flags" := d.flags])
  }

  /**
   * `from_dict(data)`: a falsy value gives a fresh session; otherwise each
   * missing key takes its default. None when `data` is not a dict, or when
   * the cursor, the order or the product configuration has a JSON type the
   * record cannot hold.
   */
  function FromDict(data: Value): (r: Option<SessionData>)
    ensures !Truthy(data) ==> r == Some(DefaultSession())
    ensures Truthy(data) && !data.Obj? ==> r == None
  {
    if !Truthy(data) then Some(DefaultSession())
    else if !data.Obj? then None
    else
      var f := data.fields;
      var cur := Get(f, "current_gate", Num(1));
      var order := Get(f, "gate_sequence", Arr(EncodeInts(DefaultSessionSequence)));
      var config := Get(f, "product_config", Obj(map[]));
      if cur.Num? && order.Arr? && DecodeInts(order.items).Some? && config.Obj? then
        Some(SessionData(
          cur.n, DecodeInts(order.items).value, config.fields,
          Get(f, "line_items", Arr([])),
          Get(f, "subtotals_by_gate", Obj(map[])),
          Get(f, "flags", Arr([]))))
      else None
  }

  /** Reading back what `to_dict` wrote gives the same session. */
  lemma FromDictToDict(d: SessionData)
    ensures FromDict(ToDict(d)) == Some(d)
  {
    DecodeEncodeInts(d.gateSequence);
    assert Truthy(ToDict(d)) by {
      assert "current_gate" in ToDict(d).fields;
    }
  }

  /** In a non-empty dict, each of the six keys that is missing takes its default. */
  lemma FromDictDefaults(f: map<string, Value>)
    requires f != map[]
    requires FromDict(Obj(f)).Some?
    ensures var d := FromDict(Obj(f)).value;
      && ("current_gate" !in f ==> d.currentGate == 1)
      && ("gate_sequence" !in f ==> d.gateSequence == DefaultSessionSequence)
      && ("product_config" !in f ==> d.productConfig == map[])
      && ("line_items" !in f ==> d.lineItems == Arr([]))
      && ("subtotals_by_gate" !in f ==> d.subtotalsByGate == Obj(map[]))
      && ("flags" !in f ==> d.flags == Arr([]))
  {
    DecodeEncodeInts(DefaultSessionSequence);
  }

  /** In a non-empty dict, each of the six keys that is present with a usable type gives the session its value. */
  lemma FromDictPresent(f: map<string, Value>)
    requires f != map[]
    requires FromDict(Obj(f)).Some?
    ensures var d := FromDict(Obj(f)).value;
      && ("current_gate" in f ==> f["current_gate"] == Num(d.currentGate))
      && ("gate_sequence" in f ==> f["gate_sequence"].Arr? && DecodeInts(f["gate_sequence"].items) == Some(d.gateSequence))
      && ("product_config" in f ==> f["product_config"] == Obj(d.productConfig))
      && ("line_items" in f ==> f["line_items"] == d.lineItems)
      && ("subtotals_by_gate" in f ==> f["subtotals_by_gate"] == d.subtotalsByGate)
      && ("flags" in f ==> f["flags"] == d.flags)
  {
  }

  /** A non-empty dict is rejected exactly when the cursor, the order or the product configuration has the wrong JSON type. */
  lemma FromDictRejects(f: map<string, Value>)
    requires f != map[]
    ensures FromDict(Obj(f)).None? <==>
      || ("current_gate" in f && !f["current_gate"].Num?)
      || ("gate_sequence" in f && !(f["gate_sequence"].Arr? && DecodeInts(f["gate_sequence"].items).Some?))
      || ("product_config" in f && !f["product_config"].Obj?)
  {
    DecodeEncodeInts(DefaultSessionSequence);
  }

  /** `seq.index(x)`: the position of the first occurrence, or None (ValueError). */
  function IndexOf(s: seq<int>, x: int): (r: Option<nat>)
    ensures r.None? <==> x !in s
    ensures r.Some? ==> r.value < |s| && s[r.value] == x && x !in s[..r.value]
  {
    if s == [] then None
    else if s[0] == x then Some(0)
    else match IndexOf(s[1..], x)
      case None => None
      case Some(i) => (assert s[..i + 1] == [s[0]] + s[1..][..i]; Some(i + 1))
  }

  /** The position of the first registered ACTIVE gate in `s`, if any. */
  function FirstActive(reg: Registry, s: seq<int>): (r: Option<nat>)
    ensures r.None? <==> forall j :: 0 <= j < |s| ==> !IsActiveGate(reg, s[j])
    ensures r.Some? ==> r.value < |s| && IsActiveGate(reg, s[r.value]) &&
                        forall j :: 0 <= j < r.value ==> !IsActiveGate(reg, s[j])
  {
    if s == [] then None
    else if IsActiveGate(reg, s[0]) then Some(0)
    else match FirstActive(reg, s[1..])
      case None => None
      case Some(j) => Some(j + 1)
  }

  /** What `next_gate()` returns for a cursor `cur` in the order `s`. */
  function NextGateOf(reg: Registry, s: seq<int>, cur: int): (r: Option<int>)
    ensures r.Some? ==> cur in s && r.value in s && IsActiveGate(reg, r.value)
    ensures cur !in s ==> r == None
  {
    match IndexOf(s, cur)
    case None => None
    case Some(i) =>
      match FirstActive(reg, s[i + 1..])
      case None => None
      case Some(j) => Some(s[i + 1 + j])
  }

  /**
   * `next_gate()` scans after the first occurrence of the cursor and returns
   * the first candidate that is registered and ACTIVE; it returns None when
   * the cursor is not in the order or no such candidate follows it.
   */
  lemma NextGateSpec(reg: Registry, s: seq<int>, cur: int)
    ensures NextGateOf(reg, s, cur).Some? ==>
      var i := IndexOf(s, cur).value;
      var g := NextGateOf(reg, s, cur).value;
      && IsActiveGate(reg, g)
      && exists k :: i < k < |s| && s[k] == g && forall j :: i < j < k ==> !IsActiveGate(reg, s[j])
    ensures NextGateOf(reg, s, cur).None? <==>
      cur !in s || forall j :: IndexOf(s, cur).value < j < |s| ==> !IsActiveGate(reg, s[j])
  {
    match IndexOf(s, cur)
    case None =>
    case Some(i) =>
      var t := s[i + 1..];
      match FirstActive(reg, t)
      case None =>
        assert forall j :: i < j < |s| ==> s[j] == t[j - i - 1];
      case Some(k) =>
        assert s[i + 1 + k] == t[k];
        assert forall j :: i < j < i + 1 + k ==> s[j] == t[j - i - 1];
  }

  /** The cursor never lands on a placeholder or on a number the registry does not hold. */
  lemma NextGateIsRegisteredAndActive(reg: Registry, s: seq<int>, cur: int)
    requires NextGateOf(reg, s, cur).Some?
    ensures GetGate(reg, NextGateOf(reg, s, cur).value).Ok?
    ensures GetGate(reg, NextGateOf(reg, s, cur).value).value.status == Active
  {
    NextGateSpec(reg, s, cur);
  }

  predicate NoDuplicates(s: seq<int>) {
    forall i, j :: 0 <= i < j < |s| ==> s[i] != s[j]
  }

  /** In an order without duplicates the next gate sits strictly later than the cursor. */
  lemma NextGateMovesForward(reg: Registry, s: seq<int>, cur: int)
    requires NoDuplicates(s)
    requires NextGateOf(reg, s, cur).Some?
    ensures cur in s && NextGateOf(reg, s, cur).value in s
    ensures IndexOf(s, NextGateOf(reg, s, cur).value).value > IndexOf(s, cur).value
  {
    var i := IndexOf(s, cur).value;
    var j := FirstActive(reg, s[i + 1..]).value;
    var g := s[i + 1 + j];
    var k := IndexOf(s, g).value;
    assert s[k] == g;
    if k != i + 1 + j {
      assert false;
    }
  }

  /**
   * Advancing repeatedly from `cur` stops: the gate it ends on has no next
   * gate. The measure is the distance of the cursor from the end of the order.
   */
  function LastGate(reg: Registry, s: seq<int>, cur: int): (r: int)
    requires NoDuplicates(s)
    ensures NextGateOf(reg, s, r).None?
    ensures r == cur || IsActiveGate(reg, r)
    decreases if cur in s then |s| - IndexOf(s, cur).value else 0
  {
    match NextGateOf(reg, s, cur)
    case None => cur
    case Some(g) =>
      NextGateMovesForward(reg, s, cur);
      NextGateSpec(reg, s, cur);
      var r := LastGate(reg, s, g);
      r
  }

  /** With a repeated gate the cursor can cycle: in [1, 2, 1] gate 1 leads to 2 and gate 2 leads back to 1. */
  lemma RepeatedGateCycles(s: AppSettings)
    ensures NextGateOf(Shipped(s), [1, 2, 1], 1) == Some(2)
    ensures NextGateOf(Shipped(s), [1, 2, 1], 2) == Some(1)
  {
    ShippedActiveGates(s, 1);
    ShippedActiveGates(s, 2);
    assert [1, 2, 1][1..] == [2, 1];
    assert [1, 2, 1][2..] == [1];
  }

  lemma DefaultSessionSequenceDistinct()
    ensures NoDuplicates(DefaultSessionSequence)
  {
  }

  /**
   * With the shipped table and the session's default order, gate 1 leads to
   * gate 2 and gate 2 leads nowhere: 17 is skipped as unregistered and 3..16
   * as placeholders.
   */
  lemma DefaultWalk(s: AppSettings)
    ensures NextGateOf(Shipped(s), DefaultSessionSequence, 1) == Some(2)
    ensures NextGateOf(Shipped(s), DefaultSessionSequence, 2) == None
    ensures NextGateOf(Shipped(s), DefaultSessionSequence, 17) == None
  {
    DefaultActivePositions(s);
    DefaultWalkFrom(s, 1);
    DefaultWalkFrom(s, 2);
    DefaultWalkFrom(s, 17);
  }

  /** In the default order only the first two positions hold ACTIVE gates of the shipped table. */
  lemma DefaultActivePositions(s: AppSettings)
    ensures forall j :: 0 <= j < |DefaultSessionSequence| ==>
      (IsActiveGate(Shipped(s), DefaultSessionSequence[j]) <==> j < 2)
  {
    var d := DefaultSessionSequence;
    forall j | 0 <= j < |d|
      ensures IsActiveGate(Shipped(s), d[j]) <==> j < 2
    {
      ShippedActiveGates(s, d[j]);
    }
  }

  lemma DefaultWalkFrom(s: AppSettings, cur: int)
    requires cur == 1 || cur == 2 || cur == 17
    requires forall j :: 0 <= j < |DefaultSessionSequence| ==>
      (IsActiveGate(Shipped(s), DefaultSessionSequence[j]) <==> j < 2)
    ensures NextGateOf(Shipped(s), DefaultSessionSequence, cur) == if cur == 1 then Some(2) else None
  {
    var d := DefaultSessionSequence;
    assert d[0] == 1 && d[1] == 2 && d[2] == 17;
    NextGateSpec(Shipped(s), d, cur);
    if cur == 1 {
      assert IndexOf(d, 1) == Some(0);
      assert FirstActive(Shipped(s), d[1..]) == Some(0);
    }
  }

  /** The mutable per-conversation record. */
  class SessionState {
    var currentGate: int
    var gateSequence: seq<int>
    var productConfig: map<string, Value>
    var lineItems: Value
    var subtotalsByGate: Value
    var flags: Value

    /** The record's fields as a value. */
    function Data(): SessionData
      reads this
    {
      SessionData(currentGate, gateSequence, productConfig, lineItems, subtotalsByGate, flags)
    }

    /** `SessionState()`: a fresh session. */
    constructor ()
      ensures Data() == DefaultSession()
    {
      currentGate := 1;
      gateSequence := DefaultSessionSequence;
      productConfig := map[];
      lineItems := Arr([]);
      subtotalsByGate := Obj(map[]);
      flags := Arr([]);
    }

    /** `SessionState(**fields)` */
    constructor FromData(d: SessionData)
      ensures Data() == d
    {
      currentGate := d.currentGate;
      gateSequence := d.gateSequence;
      productConfig := d.productConfig;
      lineItems := d.lineItems;
      subtotalsByGate := d.subtotalsByGate;
      flags := d.flags;
    }

    /** `next_gate()`: find the cursor, then scan the candidates after it. */
    method NextGate(reg: Registry) returns (r: Option<int>)
      ensures r == NextGateOf(reg, gateSequence, currentGate)
    {
      var seqn := gateSequence;
      var idx := IndexOf(seqn, currentGate);
      if idx.None? {
        return None;
      }
      var k := idx.value + 1;
      while k < |seqn|
        invariant idx.value + 1 <= k <= |seqn|
        invariant forall j :: idx.value + 1 <= j < k ==> !IsActiveGate(reg, seqn[j])
      {
        var candidate := seqn[k];
        var gateCfg := Lookup(reg, candidate);
        if gateCfg.Some? && gateCfg.value.status == Active {
          NextGateSpec(reg, seqn, currentGate);
          return Some(candidate);
        }
        k := k + 1;
      }
      NextGateSpec(reg, seqn, currentGate);
      return None;
    }

    /** `advance()`: move the cursor to the next gate when there is one; nothing else changes. */
    method Advance(reg: Registry) returns (nxt: Option<int>)
      modifies this
      ensures nxt == NextGateOf(reg, old(gateSequence), old(currentGate))
      ensures Data() == if nxt.Some? then old(Data()).(currentGate := nxt.value) else old(Data())
    {
      nxt := NextGate(reg);
      if nxt.Some? {
        currentGate := nxt.value;
      }
    }
  }
}
