/** The key/value replica that the replicated log drives (pylog/statemachine.py). */
module StateMachine {
  import opened Basics

  const EQUALS: Byte := 61

  /** What the store holds, and what one command answers. */
  datatype KV = KV(data: map<Bytes, Bytes>, ops: nat)

  datatype Answer =
    | NoAnswer
    | Stored(key: Bytes)
    | Fetched(key: Bytes, value: Option<Bytes>)

  const EMPTY_KV := KV(map[], 0)

  /** The index of the first `b` in `s`, or `|s|` when there is none. */
  function IndexOf(s: Bytes, b: Byte): (k: nat)
    ensures k <= |s|
    ensures k < |s| ==> s[k] == b
    ensures b !in s[..k]
  {
    if s == [] || s[0] == b then 0 else 1 + IndexOf(s[1..], b)
  }

  /** `KEY=VALUE` stores, anything without an `=` reads; every command counts. */
  function Execute(kv: KV, payload: Bytes): (KV, Answer) {
    var k := IndexOf(payload, EQUALS);
    if k < |payload| then
      (KV(kv.data[payload[..k] := payload[k + 1..]], kv.ops + 1), Stored(payload[..k]))
    else
      (KV(kv.data, kv.ops + 1), Fetched(payload, if payload in kv.data then Some(kv.data[payload]) else None))
  }

  /** What a snapshot records; when one is read back, either field may be missing. */
  datatype SnapshotState = SnapshotState(keys: Option<map<Bytes, Bytes>>, ops: Option<nat>)

  class KVStore {
    var data: map<Bytes, Bytes>
    var ops: nat

    constructor ()
      ensures View() == EMPTY_KV
    {
      data, ops := map[], 0;
    }

    ghost function View(): KV
      reads this
    {
      KV(data, ops)
    }

    method Apply(payload: Bytes) returns (answer: Answer)
      modifies this
      ensures (View(), answer) == Execute(old(View()), payload)
    {
      ops := ops + 1;
      var k := IndexOf(payload, EQUALS);
      if k < |payload| {
        data := data[payload[..k] := payload[k + 1..]];
        answer := Stored(payload[..k]);
      } else {
        answer := Fetched(payload, if payload in data then Some(data[payload]) else None);
      }
    }

    method Snapshot() returns (state: SnapshotState)
      ensures state == SnapshotState(Some(data), Some(ops))
    {
      state := SnapshotState(Some(data), Some(ops));
    }

    /** A missing field stands for its initial value. */
    method Restore(state: SnapshotState)
      modifies this
      ensures View() == KV(if state.keys.Some? then state.keys.value else map[], if state.ops.Some? then state.ops.value else 0)
    {
      data := if state.keys.Some? then state.keys.value else map[];
      ops := if state.ops.Some? then state.ops.value else 0;
    }
  }

  /** A snapshot carries a store over to another, whatever that one held, and from there on both
      answer alike. */
  method CarryOver(source: KVStore, target: KVStore, payload: Bytes) returns (a: Answer, b: Answer)
    requires source != target
    modifies source, target
    ensures target.View() == source.View() == Execute(old(source.View()), payload).0
    ensures a == b == Execute(old(source.View()), payload).1
  {
    var state := source.Snapshot();
    target.Restore(state);
    a := source.Apply(payload);
    b := target.Apply(payload);
  }

  lemma {:induction false} IndexOfFirst(s: Bytes, b: Byte, k: nat)
    requires k < |s| && s[k] == b && b !in s[..k]
    ensures IndexOf(s, b) == k
  {
    if k > 0 {
      assert s[0] == s[..k][0];
      assert s[1..][..k - 1] == s[..k][1..];
      IndexOfFirst(s[1..], b, k - 1);
    }
  }

  /** A value may itself hold `=`: only the first one splits, so a write is read back whole. */
  lemma WriteThenRead(kv: KV, key: Bytes, value: Bytes)
    requires EQUALS !in key
    ensures Execute(Execute(kv, key + [EQUALS] + value).0, key).1 == Fetched(key, Some(value))
  {
    var payload := key + [EQUALS] + value;
    assert payload[..|key|] == key && payload[|key| + 1..] == value;
    IndexOfFirst(payload, EQUALS, |key|);
  }

  /** A write sets its key and leaves every other key's presence and value as they were. */
  lemma WriteFrame(kv: KV, key: Bytes, value: Bytes)
    requires EQUALS !in key
    ensures var (kv', answer) := Execute(kv, key + [EQUALS] + value);
            answer == Stored(key) && kv'.ops == kv.ops + 1
            && kv'.data.Keys == kv.data.Keys + {key} && kv'.data[key] == value
            && forall k | k in kv.data && k != key :: kv'.data[k] == kv.data[k]
  {
    var payload := key + [EQUALS] + value;
    assert payload[..|key|] == key && payload[|key| + 1..] == value;
    IndexOfFirst(payload, EQUALS, |key|);
  }

  /** A command without `=` changes no key and answers what its key holds, or that it holds nothing. */
  lemma ReadFrame(kv: KV, key: Bytes)
    requires EQUALS !in key
    ensures var (kv', answer) := Execute(kv, key);
            kv'.data == kv.data && kv'.ops == kv.ops + 1
            && answer.Fetched? && answer.key == key && (answer.value.None? <==> key !in kv.data)
            && (key in kv.data ==> answer.value == Some(kv.data[key]))
  {
  }

  /** Every payload is a write or a read. */
  lemma WriteOrRead(payload: Bytes) returns (key: Bytes, value: Bytes)
    ensures EQUALS !in key && (EQUALS in payload ==> payload == key + [EQUALS] + value)
    ensures EQUALS !in payload ==> key == payload
  {
    var k := IndexOf(payload, EQUALS);
    key, value := payload[..k], if k < |payload| then payload[k + 1..] else [];
    if k == |payload| {
      assert payload[..k] == payload;
    }
  }
}
