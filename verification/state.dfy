/** The per-connection accumulation state of LauncherImpl and the invariant it keeps. */
module LauncherState {
  import opened Zx
  import opened Protocol

  /** args_, environs_, nametable_, ids_, handles_ and ldsvc_. */
  datatype State = State(
    args: seq<string>,
    environs: seq<string>,
    nametable: seq<string>,
    ids: seq<HandleId>,
    handles: seq<Handle>,
    ldsvc: Option<Handle>)

  /** The state of a fresh connection, and what Reset leaves behind. */
  const Empty: State := State([], [], [], [], [], None)

  /** The slots named by the NsDir entries of an id table, in table order. */
  function NsSlots(ids: seq<HandleId>): seq<nat>
  {
    if ids == [] then []
    else (if ids[0].NsDir? then [ids[0].slot] else []) + NsSlots(ids[1..])
  }

  /** lo, lo + 1, ..., lo + n - 1. */
  function Range(lo: nat, n: nat): seq<nat>
  {
    seq(n, k requires 0 <= k < n => lo + k)
  }

  /** What every reachable state satisfies: ids_ and handles_ run in parallel, the loader id
      never sits in the generic table, and the namespace slots in ids_ are exactly
      0, 1, ..., |nametable_| - 1 in order, one per namespace entry. */
  predicate Valid(s: State)
  {
    && |s.ids| == |s.handles|
    && Numbered(LoaderId) !in s.ids
    && NsSlots(s.ids) == Range(0, |s.nametable|)
  }

  lemma AppendAssoc<T>(a: seq<T>, b: seq<T>, c: seq<T>)
    ensures (a + b) + c == a + (b + c)
  {
  }

  lemma {:induction false} NsSlotsAppend(a: seq<HandleId>, b: seq<HandleId>)
    ensures NsSlots(a + b) == NsSlots(a) + NsSlots(b)
    decreases |a|
  {
    if a == [] {
      assert a + b == b;
    } else {
      var head := if a[0].NsDir? then [a[0].slot] else [];
      assert (a + b)[0] == a[0];
      assert (a + b)[1..] == a[1..] + b;
      assert NsSlots(a + b) == head + NsSlots(a[1..] + b);
      NsSlotsAppend(a[1..], b);
      assert NsSlots(a) == head + NsSlots(a[1..]);
      AppendAssoc(head, NsSlots(a[1..]), NsSlots(b));
    }
  }

  lemma RangeSplit(lo: nat, m: nat, n: nat)
    ensures Range(lo, m) + Range(lo + m, n) == Range(lo, m + n)
  {
  }

  lemma EmptyIsValid()
    ensures Valid(Empty)
  {
  }
}
