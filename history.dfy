/** The history log of the page (script.js:55-56, 88-126): a newest-first list
    of at most 50 committed results, one debounce slot holding the push that
    will be committed when its timer fires, and the view of the log.
    Wall-clock time is replaced by an explicit `Fire` step that stands for the
    timer elapsing; `now` is the time it reads. */
module History {
  import opened Wrappers

  /** The cap the log is trimmed to (script.js:114) and the length of the view (script.js:94). */
  const Capacity := 50

  /** A committed history item: category, value text, sub text, reference tag and commit time. */
  datatype Entry = Entry(kind: string, val: string, sub: string, ref: string, timestamp: int)

  /** What a push hands to its timer: everything of an entry but the commit time. */
  datatype Request = Request(kind: string, val: string, sub: string, ref: string)

  /** The triple duplicates are detected on; the reference tag and the time play no part. */
  function EntryKey(e: Entry): (string, string, string) {
    (e.kind, e.val, e.sub)
  }

  function RequestKey(q: Request): (string, string, string) {
    (q.kind, q.val, q.sub)
  }

  /** The push repeats the newest committed entry (script.js:105-108). */
  predicate DuplicatesHead(log: seq<Entry>, q: Request) {
    |log| > 0 && EntryKey(log[0]) == RequestKey(q)
  }

  /** The entry a timer commits: the request as captured at push time, stamped when the timer fires. */
  function Stamp(q: Request, now: int): (e: Entry)
    ensures EntryKey(e) == RequestKey(q) && e.ref == q.ref && e.timestamp == now
  {
    Entry(q.kind, q.val, q.sub, q.ref, now)
  }

  /** `unshift`, then one `pop` when the log has grown past the cap (script.js:113-114). */
  function Commit(log: seq<Entry>, e: Entry): (r: seq<Entry>)
    ensures |r| > 0 && r[0] == e
    ensures |r| == if |log| < Capacity then |log| + 1 else |log|
    ensures forall i :: 0 < i < |r| ==> r[i] == log[i - 1]
  {
    var grown := [e] + log;
    if |grown| > Capacity then grown[..|grown| - 1] else grown
  }

  /** No two neighbouring entries carry the same triple. */
  predicate NoRepeats(log: seq<Entry>) {
    forall i :: 0 < i < |log| ==> EntryKey(log[i - 1]) != EntryKey(log[i])
  }

  // ---------------------------------------------------------------------------
  // The store as a value: the log and the debounce slot

  datatype State = State(log: seq<Entry>, pending: Option<Request>)

  /** The slot never holds a copy of the newest entry: such a push is refused. */
  predicate PendingFresh(s: State) {
    s.pending.Some? ==> !DuplicatesHead(s.log, s.pending.value)
  }

  /** `pushHistory`: a duplicate of the head changes nothing; any other push
      cancels the pending timer and arms a new one with this request
      (script.js:103-118). */
  function PushStep(s: State, q: Request): (t: State)
    ensures t.log == s.log
    ensures DuplicatesHead(s.log, q) ==> t == s
    ensures !DuplicatesHead(s.log, q) ==> t.pending == Some(q)
    ensures PendingFresh(s) ==> PendingFresh(t)
  {
    if DuplicatesHead(s.log, q) then s else State(s.log, Some(q))
  }

  /** The pending timer fires: its request is committed and the slot is empty again. */
  function FireStep(s: State, now: int): (t: State)
    ensures t.pending == None
    ensures s.pending.None? ==> t.log == s.log
    ensures s.pending.Some? ==> t.log == Commit(s.log, Stamp(s.pending.value, now))
  {
    match s.pending
    case None => s
    case Some(q) => State(Commit(s.log, Stamp(q, now)), None)
  }

  /** The clear button (script.js:120-126): the log is emptied, the pending timer is not cancelled. */
  function ClearStep(s: State): (t: State)
    ensures t.log == [] && t.pending == s.pending
    ensures PendingFresh(t)
  {
    State([], s.pending)
  }

  /** A burst of pushes with no timer firing in between. */
  function PushAll(s: State, qs: seq<Request>): State
    decreases |qs|
  {
    if qs == [] then s else PushAll(PushStep(s, qs[0]), qs[1..])
  }

  /** The latest request in `qs` that does not repeat the head of `log`, or `dflt` when there is none. */
  function LatestFresh(log: seq<Entry>, qs: seq<Request>, dflt: Option<Request>): (o: Option<Request>)
    ensures o.Some? && o != dflt ==> o.value in qs && !DuplicatesHead(log, o.value)
    decreases |qs|
  {
    if qs == [] then dflt
    else if DuplicatesHead(log, qs[|qs| - 1]) then LatestFresh(log, qs[..|qs| - 1], dflt)
    else Some(qs[|qs| - 1])
  }

  /** A series of commits, oldest first. */
  function CommitAll(log: seq<Entry>, es: seq<Entry>): seq<Entry>
    decreases |es|
  {
    if es == [] then log else CommitAll(Commit(log, es[0]), es[1..])
  }

  function Reversed<T>(s: seq<T>): (r: seq<T>)
    ensures |r| == |s|
  {
    if s == [] then [] else Reversed(s[1..]) + [s[0]]
  }

  /** The first `n` elements of `s`, or all of them when there are fewer. */
  function Take<T>(s: seq<T>, n: nat): (r: seq<T>)
    ensures |r| == if |s| <= n then |s| else n
  {
    if |s| <= n then s else s[..n]
  }

  // ---------------------------------------------------------------------------
  // The view (script.js:88-101)

  /** One rendered item; the tag is shown only when the reference is not empty. */
  datatype Row = Row(kind: string, tag: Option<string>, val: string, sub: string)

  datatype View = NoHistoryYet | Rows(rows: seq<Row>)

  function RowOf(e: Entry): (w: Row)
    ensures w.kind == e.kind && w.val == e.val && w.sub == e.sub
    ensures w.tag.None? <==> e.ref == ""
    ensures w.tag.Some? ==> w.tag.value == e.ref
  {
    Row(e.kind, if e.ref != "" then Some(e.ref) else None, e.val, e.sub)
  }

  /** `map` over a slice of the log. */
  function RowsOf(es: seq<Entry>): (ws: seq<Row>)
    ensures |ws| == |es|
    ensures forall i :: 0 <= i < |es| ==> ws[i] == RowOf(es[i])
  {
    if es == [] then [] else [RowOf(es[0])] + RowsOf(es[1..])
  }

  /** `renderHistory`: the placeholder for an empty log, otherwise the first 50 entries in log order. */
  function Render(log: seq<Entry>): (v: View)
    ensures v == NoHistoryYet <==> log == []
    ensures v.Rows? ==> |v.rows| == (if |log| < Capacity then |log| else Capacity)
    ensures v.Rows? ==> forall i :: 0 <= i < |v.rows| ==> v.rows[i] == RowOf(log[i])
  {
    if |log| == 0 then NoHistoryYet
    else Rows(RowsOf(if |log| <= Capacity then log else log[..Capacity]))
  }

  // ---------------------------------------------------------------------------
  // What the store promises

  /** A commit onto a log within the cap keeps the newest 50 of the new entry and the old log. */
  lemma CommitIsTake(log: seq<Entry>, e: Entry)
    requires |log| <= Capacity
    ensures Commit(log, e) == Take([e] + log, Capacity)
  {
  }

  lemma {:induction false} TakeOfTake<T>(a: seq<T>, b: seq<T>, n: nat)
    ensures Take(a + Take(b, n), n) == Take(a + b, n)
  {
    if |b| > n {
      assert (a + b[..n])[..n] == (a + b)[..n] by {
        assert forall i :: 0 <= i < n ==> (a + b[..n])[i] == (a + b)[i];
      }
    }
  }

  lemma {:induction false} ReversedShift<T>(es: seq<T>, tail: seq<T>)
    requires es != []
    ensures Reversed(es[1..]) + ([es[0]] + tail) == Reversed(es) + tail
  {
    var r := Reversed(es[1..]);
    assert Reversed(es) == r + [es[0]];
    assert r + ([es[0]] + tail) == (r + [es[0]]) + tail;
  }

  /** Committing any series of entries onto a log within the cap leaves exactly
      the 50 newest of them all, newest first; so the log never exceeds 50. */
  lemma {:induction false} CommitAllKeepsNewest(log: seq<Entry>, es: seq<Entry>)
    requires |log| <= Capacity
    ensures CommitAll(log, es) == Take(Reversed(es) + log, Capacity)
    ensures |CommitAll(log, es)| <= Capacity
    decreases |es|
  {
    if es != [] {
      var e, rest := es[0], es[1..];
      var next := Commit(log, e);
      CommitIsTake(log, e);
      CommitAllKeepsNewest(next, rest);
      TakeOfTake(Reversed(rest), [e] + log, Capacity);
      ReversedShift(es, log);
    }
  }

  /** Fifty-one distinct results in a row leave exactly the last fifty, newest first. */
  lemma FiftyOneKeepsFifty(es: seq<Entry>)
    requires |es| == Capacity + 1
    ensures CommitAll([], es) == Reversed(es)[..Capacity]
    ensures |CommitAll([], es)| == Capacity
  {
    CommitAllKeepsNewest([], es);
    assert Reversed(es) + [] == Reversed(es);
  }

  lemma {:induction false} LatestFreshCons(log: seq<Entry>, q: Request, qs: seq<Request>, dflt: Option<Request>)
    ensures LatestFresh(log, [q] + qs, dflt) ==
            LatestFresh(log, qs, if DuplicatesHead(log, q) then dflt else Some(q))
    decreases |qs|
  {
    if qs != [] {
      assert ([q] + qs)[..|[q] + qs| - 1] == [q] + qs[..|qs| - 1];
      LatestFreshCons(log, q, qs[..|qs| - 1], dflt);
    } else {
      assert ([q] + qs)[..0] == [];
    }
  }

  /** Debounce is last-write-wins: after a burst of pushes the log is untouched
      and the slot holds the latest push that did not repeat the head, or what
      it held before when every push did. */
  lemma {:induction false} PushAllSettles(s: State, qs: seq<Request>)
    ensures PushAll(s, qs) == State(s.log, LatestFresh(s.log, qs, s.pending))
    decreases |qs|
  {
    if qs != [] {
      var q := qs[0];
      PushAllSettles(PushStep(s, q), qs[1..]);
      LatestFreshCons(s.log, q, qs[1..], s.pending);
      assert [q] + qs[1..] == qs;
    }
  }

  /** A burst followed by its timer adds exactly one entry, built from the last
      push of the burst (when that push does not repeat the head). */
  lemma BurstCommitsLast(s: State, qs: seq<Request>, now: int)
    requires |qs| > 0 && !DuplicatesHead(s.log, qs[|qs| - 1])
    ensures FireStep(PushAll(s, qs), now) == State(Commit(s.log, Stamp(qs[|qs| - 1], now)), None)
  {
    PushAllSettles(s, qs);
  }

  /** A burst made only of repeats of the head leaves the store as it was. */
  lemma BurstOfRepeatsIsNoop(s: State, qs: seq<Request>)
    requires forall i :: 0 <= i < |qs| ==> DuplicatesHead(s.log, qs[i])
    ensures PushAll(s, qs) == s
  {
    PushAllSettles(s, qs);
    NoFreshGivesDefault(s.log, qs, s.pending);
  }

  lemma {:induction false} NoFreshGivesDefault(log: seq<Entry>, qs: seq<Request>, dflt: Option<Request>)
    requires forall i :: 0 <= i < |qs| ==> DuplicatesHead(log, qs[i])
    ensures LatestFresh(log, qs, dflt) == dflt
    decreases |qs|
  {
    if qs != [] {
      NoFreshGivesDefault(log, qs[..|qs| - 1], dflt);
    }
  }

  /** The timer never commits a repeat of the head, so the log gains no neighbouring repeats. */
  lemma FireKeepsNoRepeats(s: State, now: int)
    requires PendingFresh(s) && NoRepeats(s.log)
    ensures NoRepeats(FireStep(s, now).log)
  {
    if s.pending.Some? {
      var r := FireStep(s, now).log;
      forall i | 0 < i < |r| ensures EntryKey(r[i - 1]) != EntryKey(r[i]) {
        if i > 1 {
          assert r[i - 1] == s.log[i - 2];
        }
      }
    }
  }

  // ---------------------------------------------------------------------------
  // The store as the page holds it

  /** The module-level `history` array and the single `historyTimeout` slot. */
  class HistoryStore {
    var log: seq<Entry>
    var pending: Option<Request>

    function Snapshot(): State
      reads this
    {
      State(log, pending)
    }

    ghost predicate Valid()
      reads this
    {
      PendingFresh(Snapshot())
    }

    /** Page load: the stored log, or an empty one when nothing was stored (script.js:55-56). */
    constructor (stored: Option<seq<Entry>>)
      ensures Valid()
      ensures log == (if stored.Some? then stored.value else [])
      ensures pending == None
    {
      log := if stored.Some? then stored.value else [];
      pending := None;
    }

    /** `pushHistory(type, val, sub)` with the reference tag read at the time of the call. */
    method Push(kind: string, val: string, sub: string, ref: string)
      requires Valid()
      modifies this
      ensures Valid()
      ensures Snapshot() == PushStep(old(Snapshot()), Request(kind, val, sub, ref))
    {
      var latest := if |log| > 0 then Some(log[0]) else None;
      if latest.Some? && latest.value.kind == kind && latest.value.val == val && latest.value.sub == sub {
        return;
      }
      pending := Some(Request(kind, val, sub, ref));
    }

    /** The debounce timer elapses at time `now`. */
    method Fire(now: int)
      requires Valid()
      modifies this
      ensures Valid()
      ensures Snapshot() == FireStep(old(Snapshot()), now)
      ensures old(|log|) <= Capacity ==> |log| <= Capacity
      ensures old(NoRepeats(log)) ==> NoRepeats(log)
    {
      if pending.Some? {
        ghost var before := Snapshot();
        var q := pending.value;
        log := [Stamp(q, now)] + log;
        if |log| > Capacity {
          log := log[..|log| - 1];
        }
        pending := None;
        if NoRepeats(before.log) {
          FireKeepsNoRepeats(before, now);
        }
      }
    }

    /** The confirmed clear button. */
    method Clear()
      requires Valid()
      modifies this
      ensures Valid()
      ensures Snapshot() == ClearStep(old(Snapshot()))
    {
      log := [];
    }
  }
}
