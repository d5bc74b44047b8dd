/** The hook hub as the program runs it: its cells, and the loops over its entries. */
module HubObjects {
  import opened Basics
  import H = Hub

  /** A registered callback; `every` is its instruction count trigger. */
  class Entry {
    const every: Option<nat>
    var counted: nat

    constructor (every: Option<nat>)
      ensures this.every == every && counted == 0
    {
      this.every, counted := every, 0;
    }
  }

  /** What a count event does to one entry: its new count, and whether its callback runs. */
  function CountOf(every: Option<nat>, counted: nat, step: nat): (nat, bool) {
    if every.Some? then H.CountEntry(counted, every.value, step) else (counted, false)
  }

  /** The entries of `list` whose callbacks a count event runs, in order. */
  ghost function Due(list: seq<Entry>, step: nat): (r: seq<Entry>)
    reads list
    ensures forall e :: e in r ==> e in list && e.every.Some? && (e.counted + step) % H.U32 >= e.every.value
    ensures forall e :: e in list && e.every.Some? && (e.counted + step) % H.U32 >= e.every.value ==> e in r
  {
    if list == [] then []
    else
      var rest := Due(list[..|list| - 1], step);
      var e := list[|list| - 1];
      if CountOf(e.every, e.counted, step).1 then rest + [e] else rest
  }

  class HookHub {
    var entries: seq<Entry>
    var checks: nat
    var deferred: nat
    var step: nat
    var cancelEvery: nat

    ghost predicate Valid()
      reads this
    {
      && NoDup(entries)
      && H.CountersOk(Counters())
      && 0 < step <= H.CANCEL_CHECK_INTERVAL && cancelEvery == H.CancelEvery(step)
    }

    ghost function Counters(): H.Counters
      reads this
    {
      H.Counters(checks, deferred)
    }

    /** No callbacks: one count event for each cancel check. */
    constructor ()
      ensures Valid() && entries == [] && Counters() == H.Counters(0, 0)
    {
      entries, checks, deferred := [], 0, 0;
      step, cancelEvery := H.CANCEL_CHECK_INTERVAL, 1;
      H.CeilDivBounds(H.CANCEL_CHECK_INTERVAL, H.CANCEL_CHECK_INTERVAL);
    }

    /** Take the smallest instruction count that any entry or the cancel check wants (`install`). */
    method Install()
      requires NoDup(entries) && H.CountersOk(Counters())
      modifies this`step, this`cancelEvery
      ensures Valid()
      ensures forall e :: e in entries && e.every.Some? ==> step <= Max(e.every.value, 1)
      ensures step == H.CANCEL_CHECK_INTERVAL ||
        exists e :: e in entries && e.every.Some? && step == Max(e.every.value, 1)
    {
      step := H.CANCEL_CHECK_INTERVAL;
      var k := 0;
      while k < |entries|
        modifies this`step
        invariant k <= |entries| && 0 < step <= H.CANCEL_CHECK_INTERVAL
        invariant forall j :: 0 <= j < k && entries[j].every.Some? ==> step <= Max(entries[j].every.value, 1)
        invariant step == H.CANCEL_CHECK_INTERVAL ||
          exists e :: e in entries && e.every.Some? && step == Max(e.every.value, 1)
      {
        match entries[k].every {
          case None =>
          case Some(n) =>
            if n < step {
              step := if n < 1 then 1 else n;
              assert entries[k] in entries;
            }
        }
        k := k + 1;
      }
      cancelEvery := H.CancelEvery(step);
    }

    /**
     One count event (`dispatch`): check for a cancel, put it off in the poll
     chunk, and otherwise run the entries that are due.
     */
    method Dispatch(cancelled: bool, inPoll: bool) returns (raised: bool, fired: seq<Entry>)
      requires Valid()
      modifies this`checks, this`deferred, entries
      ensures Valid() && (Counters(), raised) == H.Check(old(Counters()), cancelEvery, cancelled, inPoll)
      ensures checks == (old(checks) + 1) % H.U32
      ensures raised <==> cancelled && checks % cancelEvery == 0 && (!inPoll || old(deferred) == H.MAX_DEFERRED)
      ensures !cancelled ==> deferred == old(deferred)
      ensures fired == if raised then [] else old(Due(entries, step))
      ensures !raised ==> forall e :: e in entries ==>
        (e in fired <==> e.every.Some? && (old(e.counted) + step) % H.U32 >= e.every.value)
      ensures raised ==> forall e :: e in entries ==> e.counted == old(e.counted)
      ensures !raised ==> forall e :: e in entries ==> e.counted == CountOf(e.every, old(e.counted), step).0
    {
      checks := (checks + 1) % H.U32;
      if checks % cancelEvery == 0 && cancelled {
        if deferred < H.MAX_DEFERRED && inPoll {
          deferred := deferred + 1;
        } else {
          deferred := 0;
          return true, [];
        }
      }
      fired := RunEntries();
      return false, fired;
    }

    /** The entries that are due run, in order; the others add up their instructions. */
    method RunEntries() returns (fired: seq<Entry>)
      requires NoDup(entries)
      modifies entries
      ensures fired == old(Due(entries, step))
      ensures forall e :: e in entries ==> e.counted == CountOf(e.every, old(e.counted), step).0
    {
      fired := [];
      var k := 0;
      while k < |entries|
        modifies entries
        invariant k <= |entries| && fired == old(Due(entries[..k], step))
        invariant forall j :: 0 <= j < k ==>
          entries[j].counted == CountOf(entries[j].every, old(entries[j].counted), step).0
        invariant forall j :: k <= j < |entries| ==> entries[j].counted == old(entries[j].counted)
      {
        var e := entries[k];
        assert entries[..k + 1][..k] == entries[..k];
        if e.every.Some? {
          var c := (e.counted + step) % H.U32;
          if c >= e.every.value {
            e.counted := 0;
            fired := fired + [e];
          } else {
            e.counted := c;
          }
        }
        k := k + 1;
      }
      assert entries[..k] == entries;
    }
  }
}
