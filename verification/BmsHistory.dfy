/**
 The readbacks behind the BMS summary. Every cell page keeps its newest seven timestamped readbacks;
 a readback that is not available forgets them all.
 */
module BmsHistory {
  import opened Prelude
  import opened BatteryPage

  datatype PageId = PageId(selector: nat, tag: Option<nat>)

  /** A readback as received: its page identity, if it carries a page, and whether the BMS is available. */
  datatype Packet = Packet(page: Option<PageId>, readback: Readback, available: bool)

  /** Timestamped cell pages enter the history. */
  predicate Tracked(p: Packet) {
    p.page.Some? && p.readback.cells.Some? && p.readback.observedAt.Some?
  }

  function CountOf(ps: seq<Packet>, page: Option<PageId>): nat {
    if ps == [] then 0 else (if ps[0].page == page then 1 else 0) + CountOf(ps[1..], page)
  }

  /** Removes the oldest readback of a page. */
  function WithoutOldest(ps: seq<Packet>, page: Option<PageId>): seq<Packet> {
    if ps == [] then []
    else if ps[0].page == page then ps[1..]
    else [ps[0]] + WithoutOldest(ps[1..], page)
  }

  /** A full page gives up its oldest readback for the new one. */
  function Admit(history: seq<Packet>, p: Packet): seq<Packet> {
    (if CountOf(history, p.page) == HISTORY_CYCLES then WithoutOldest(history, p.page) else history) + [p]
  }

  function Observe(history: seq<Packet>, p: Packet): seq<Packet> {
    var kept := if p.available then history else [];
    if Tracked(p) then Admit(kept, p) else kept
  }

  function HistoryAfter(packets: seq<Packet>): seq<Packet> {
    if packets == [] then [] else Observe(HistoryAfter(packets[..|packets| - 1]), packets[|packets| - 1])
  }

  // ---------------------------------------------------------------------------------------------
  // What is retained
  // ---------------------------------------------------------------------------------------------

  predicate IsTimestampedCellPage(p: Packet) {
    p.page.Some? && p.readback.cells.Some? && p.readback.observedAt.Some?
  }

  /**
   Only timestamped cell pages are ever retained, and each of them is, as the newest entry. Anything else leaves the
   history as it is, or forgets it when the BMS is not available.
   */
  lemma {:induction false} OnlyCellPagesAreRetained(packets: seq<Packet>)
    ensures forall k | 0 <= k < |HistoryAfter(packets)| :: IsTimestampedCellPage(HistoryAfter(packets)[k])
    ensures packets != [] ==>
              var (p, history) := (packets[|packets| - 1], HistoryAfter(packets));
              if IsTimestampedCellPage(p) then history != [] && history[|history| - 1] == p
              else history == if p.available then HistoryAfter(packets[..|packets| - 1]) else []
  {
    if packets != [] {
      OnlyCellPagesAreRetained(packets[..|packets| - 1]);
      WithoutOldestKeepsOthers(HistoryAfter(packets[..|packets| - 1]), packets[|packets| - 1].page);
    }
  }

  lemma {:induction false} WithoutOldestKeepsOthers(ps: seq<Packet>, page: Option<PageId>)
    requires forall k | 0 <= k < |ps| :: IsTimestampedCellPage(ps[k])
    ensures forall k | 0 <= k < |WithoutOldest(ps, page)| :: IsTimestampedCellPage(WithoutOldest(ps, page)[k])
  {
    if ps != [] {
      WithoutOldestKeepsOthers(ps[1..], page);
    }
  }

  /** Every tracked readback since the BMS was last unavailable, oldest first. */
  function Log(packets: seq<Packet>): seq<Packet> {
    if packets == [] then []
    else
      var p := packets[|packets| - 1];
      (if p.available then Log(packets[..|packets| - 1]) else []) + if Tracked(p) then [p] else []
  }

  /** The entries with fewer than seven later ones of the same page. */
  function Recent(log: seq<Packet>): seq<Packet> {
    if log == [] then []
    else (if CountOf(log[1..], log[0].page) < HISTORY_CYCLES then [log[0]] else []) + Recent(log[1..])
  }

  function AtMostSeven(n: nat): nat {
    if n < HISTORY_CYCLES then n else HISTORY_CYCLES
  }

  lemma {:induction false} CountAppend(ps: seq<Packet>, p: Packet, page: Option<PageId>)
    ensures CountOf(ps + [p], page) == CountOf(ps, page) + if p.page == page then 1 else 0
  {
    if ps == [] {
      assert ps + [p] == [p];
      assert CountOf([p], page) == (if p.page == page then 1 else 0) + CountOf([], page);
    } else {
      CountAppend(ps[1..], p, page);
      assert (ps + [p])[1..] == ps[1..] + [p];
    }
  }

  lemma {:induction false} CountCons(p: Packet, ps: seq<Packet>, page: Option<PageId>)
    ensures CountOf([p] + ps, page) == (if p.page == page then 1 else 0) + CountOf(ps, page)
  {
    assert ([p] + ps)[1..] == ps;
  }

  lemma {:induction false} RecentCount(log: seq<Packet>, page: Option<PageId>)
    ensures CountOf(Recent(log), page) == AtMostSeven(CountOf(log, page))
  {
    if log != [] {
      RecentCount(log[1..], page);
      CountCons(log[0], Recent(log[1..]), page);
      assert [] + Recent(log[1..]) == Recent(log[1..]);
    }
  }

  lemma {:induction false} RecentHead(log: seq<Packet>)
    requires log != []
    ensures Recent(log) == if CountOf(log[1..], log[0].page) < HISTORY_CYCLES
                           then [log[0]] + Recent(log[1..]) else Recent(log[1..])
  {
  }

  /** An entry of another page, or of a page with room, stays in front of whatever is admitted behind it. */
  lemma AdmitBehind(x: Packet, rest: seq<Packet>, p: Packet)
    requires x.page != p.page || CountOf(rest, p.page) < HISTORY_CYCLES - 1
    ensures Admit([x] + rest, p) == [x] + Admit(rest, p)
  {
    CountCons(x, rest, p.page);
    assert ([x] + rest)[1..] == rest;
    if x.page != p.page {
      assert [x] + WithoutOldest(rest, p.page) + [p] == [x] + (WithoutOldest(rest, p.page) + [p]);
    }
    assert [x] + rest + [p] == [x] + (rest + [p]);
  }

  /** The oldest of seven entries of a page makes room for the new one. */
  lemma AdmitOver(x: Packet, rest: seq<Packet>, p: Packet)
    requires x.page == p.page && CountOf(rest, p.page) == HISTORY_CYCLES - 1
    ensures Admit([x] + rest, p) == rest + [p] == Admit(rest, p)
  {
    CountCons(x, rest, p.page);
    assert ([x] + rest)[1..] == rest;
  }

  /** Evicting the oldest of a full page is the same as keeping the newest seven. */
  lemma {:induction false} AdmitKeepsRecent(log: seq<Packet>, p: Packet)
    ensures Admit(Recent(log), p) == Recent(log + [p])
  {
    if log == [] {
      assert log + [p] == [p];
      assert Recent([p]) == [p] + Recent([]);
      assert Admit([], p) == [p];
    } else {
      var x, rest := log[0], Recent(log[1..]);
      AdmitKeepsRecent(log[1..], p);
      assert (log + [p])[0] == x && (log + [p])[1..] == log[1..] + [p];
      CountAppend(log[1..], p, x.page);
      RecentHead(log);
      RecentHead(log + [p]);
      RecentCount(log[1..], p.page);
      if CountOf(log[1..], x.page) < HISTORY_CYCLES {
        if x.page == p.page && CountOf(log[1..], p.page) == HISTORY_CYCLES - 1 {
          AdmitOver(x, rest, p);
        } else {
          AdmitBehind(x, rest, p);
        }
      }
    }
  }

  /** After every sequence of readbacks the history is exactly the recent part of the log, in arrival order. */
  lemma {:induction false} HistoryIsRecent(packets: seq<Packet>)
    ensures HistoryAfter(packets) == Recent(Log(packets))
  {
    if packets != [] {
      var before, p := packets[..|packets| - 1], packets[|packets| - 1];
      HistoryIsRecent(before);
      var log := if p.available then Log(before) else [];
      if Tracked(p) {
        AdmitKeepsRecent(log, p);
      } else {
        assert log + [] == log;
      }
    }
  }

  // ---------------------------------------------------------------------------------------------
  // Newest seven, by page and by identity
  // ---------------------------------------------------------------------------------------------

  function OfPage(ps: seq<Packet>, page: Option<PageId>): seq<Packet> {
    if ps == [] then [] else (if ps[0].page == page then [ps[0]] else []) + OfPage(ps[1..], page)
  }

  /** The newest seven elements, or all of them. */
  function NewestSeven<T>(s: seq<T>): seq<T> {
    s[|s| - AtMostSeven(|s|)..]
  }

  lemma {:induction false} PageSize(ps: seq<Packet>, page: Option<PageId>)
    ensures |OfPage(ps, page)| == CountOf(ps, page)
  {
    if ps != [] {
      PageSize(ps[1..], page);
    }
  }

  lemma {:induction false} PageCons(x: Packet, ps: seq<Packet>, page: Option<PageId>)
    ensures OfPage([x] + ps, page) == (if x.page == page then [x] else []) + OfPage(ps, page)
  {
    assert ([x] + ps)[1..] == ps;
  }

  lemma NewestSevenCons<T>(x: T, s: seq<T>)
    ensures |s| < HISTORY_CYCLES ==> NewestSeven([x] + s) == [x] + NewestSeven(s)
    ensures |s| >= HISTORY_CYCLES ==> NewestSeven([x] + s) == NewestSeven(s)
  {
  }

  /** Of every page exactly its newest seven logged readbacks are recent. */
  lemma {:induction false} PageKeepsNewestSeven(log: seq<Packet>, page: Option<PageId>)
    ensures OfPage(Recent(log), page) == NewestSeven(OfPage(log, page))
  {
    if log != [] {
      var x, tail := log[0], OfPage(log[1..], page);
      PageKeepsNewestSeven(log[1..], page);
      RecentHead(log);
      PageCons(x, Recent(log[1..]), page);
      PageSize(log[1..], page);
      assert log == [x] + log[1..];
      PageCons(x, log[1..], page);
      if x.page == page {
        NewestSevenCons(x, tail);
      } else {
        assert [] + tail == tail && [] + NewestSeven(tail) == NewestSeven(tail);
      }
    }
  }

  function Readbacks(ps: seq<Packet>): seq<Readback> {
    seq(|ps|, i requires 0 <= i < |ps| => ps[i].readback)
  }

  /** The timestamped readings of one identity, oldest first. */
  function Readings(ps: seq<Packet>, index: nat): seq<Sample> {
    if ps == [] then [] else Contribution(ps[0], index) + Readings(ps[1..], index)
  }

  function Contribution(p: Packet, index: nat): seq<Sample> {
    if Reports(p.readback, index) then [Reading(p.readback, index)] else []
  }

  lemma {:induction false} ReadingsAppend(ps: seq<Packet>, p: Packet, index: nat)
    ensures Readings(ps + [p], index) == Readings(ps, index) + Contribution(p, index)
  {
    if ps == [] {
      assert ps + [p] == [p];
      assert Readings([p], index) == Contribution(p, index) + Readings([], index);
    } else {
      ReadingsAppend(ps[1..], p, index);
      assert (ps + [p])[0] == ps[0] && (ps + [p])[1..] == ps[1..] + [p];
      Regroup(Contribution(ps[0], index), Readings(ps[1..], index), Contribution(p, index));
    }
  }

  lemma Regroup(a: seq<Sample>, b: seq<Sample>, c: seq<Sample>)
    ensures a + (b + c) == a + b + c
  {
  }

  /** The summary's history of an identity is its readings in the retained packets. */
  lemma {:induction false} HistoryIsReadings(ps: seq<Packet>, index: nat)
    ensures History(Readbacks(ps), index) == Readings(ps, index)
    decreases |ps|
  {
    if ps != [] {
      var n := |ps| - 1;
      HistoryIsReadings(ps[..n], index);
      assert Readbacks(ps)[..n] == Readbacks(ps[..n]);
      assert ps == ps[..n] + [ps[n]];
      ReadingsAppend(ps[..n], ps[n], index);
    }
  }

  /** No packet of another page reports the identity. */
  predicate SolePage(ps: seq<Packet>, page: Option<PageId>, index: nat) {
    forall i | 0 <= i < |ps| :: Reports(ps[i].readback, index) ==> ps[i].page == page
  }

  lemma {:induction false} SolePageReads(ps: seq<Packet>, page: Option<PageId>, index: nat)
    requires SolePage(ps, page, index)
    ensures Readings(ps, index) == Readings(OfPage(ps, page), index)
  {
    if ps != [] {
      SolePageReads(ps[1..], page, index);
      if ps[0].page == page {
        assert ([ps[0]] + OfPage(ps[1..], page))[1..] == OfPage(ps[1..], page);
      } else {
        assert [] + OfPage(ps[1..], page) == OfPage(ps[1..], page);
      }
    }
  }

  lemma {:induction false} RecentIsLogged(log: seq<Packet>, page: Option<PageId>, index: nat)
    requires SolePage(log, page, index)
    ensures SolePage(Recent(log), page, index)
  {
    if log != [] {
      RecentIsLogged(log[1..], page, index);
      RecentHead(log);
    }
  }

  predicate AllReport(ps: seq<Packet>, index: nat) {
    forall i | 0 <= i < |ps| :: Reports(ps[i].readback, index)
  }

  lemma {:induction false} ReadingsOfAll(ps: seq<Packet>, index: nat)
    requires AllReport(ps, index)
    ensures |Readings(ps, index)| == |ps|
    ensures forall i | 0 <= i < |ps| :: Readings(ps, index)[i] == Reading(ps[i].readback, index)
  {
    if ps != [] {
      ReadingsOfAll(ps[1..], index);
    }
  }

  lemma NewestReadings(ps: seq<Packet>, index: nat)
    requires AllReport(ps, index)
    ensures Readings(NewestSeven(ps), index) == NewestSeven(Readings(ps, index))
  {
    ReadingsOfAll(ps, index);
    ReadingsOfAll(NewestSeven(ps), index);
  }

  /**
   After every sequence of readbacks: an identity that only one page reports has, in the summary, exactly
   the readings of that page's newest seven logged readbacks.
   */
  lemma IdentityReadsNewestPages(packets: seq<Packet>, page: Option<PageId>, index: nat)
    requires SolePage(Log(packets), page, index)
    ensures History(Readbacks(HistoryAfter(packets)), index)
         == Readings(NewestSeven(OfPage(Log(packets), page)), index)
  {
    var log := Log(packets);
    HistoryIsRecent(packets);
    HistoryIsReadings(Recent(log), index);
    RecentIsLogged(log, page, index);
    SolePageReads(Recent(log), page, index);
    PageKeepsNewestSeven(log, page);
  }

  /** The part of a history that the stabilizing window reads. */
  function OldestSeven<T>(s: seq<T>): seq<T> {
    s[..AtMostSeven(|s|)]
  }

  predicate Distinct<T(==)>(s: seq<T>) {
    forall i, j | 0 <= i < j < |s| :: s[i] != s[j]
  }

  /** The stabilized value reads the oldest seven retained readings and no other. */
  lemma WindowReadsOldestSeven(kept: seq<Sample>)
    ensures Stabilized(kept) == Stabilized(OldestSeven(kept))
  {
    assert Window(kept) == Window(OldestSeven(kept));
  }

  /**
   For every sequence of readbacks and every identity, on however many pages: the window holds the newest
   retained readings if at most seven are retained, and, readings being distinct, only then.
   */
  lemma WindowHoldsNewest(packets: seq<Packet>, index: nat)
    ensures var kept := History(Readbacks(HistoryAfter(packets)), index);
            && kept == Readings(Recent(Log(packets)), index)
            && Stabilized(kept) == Stabilized(OldestSeven(kept))
            && (|kept| <= HISTORY_CYCLES ==> OldestSeven(kept) == NewestSeven(kept) == kept)
            && (Distinct(kept) ==> (OldestSeven(kept) == NewestSeven(kept) <==> |kept| <= HISTORY_CYCLES))
  {
    HistoryIsRecent(packets);
    HistoryIsReadings(Recent(Log(packets)), index);
    WindowReadsOldestSeven(Readings(Recent(Log(packets)), index));
    OldestAreNewest(Readings(Recent(Log(packets)), index));
  }

  lemma OldestAreNewest(kept: seq<Sample>)
    ensures |kept| <= HISTORY_CYCLES ==> OldestSeven(kept) == NewestSeven(kept) == kept
    ensures Distinct(kept) ==> (OldestSeven(kept) == NewestSeven(kept) <==> |kept| <= HISTORY_CYCLES)
  {
    if Distinct(kept) && |kept| > HISTORY_CYCLES {
      assert OldestSeven(kept)[0] == kept[0] && NewestSeven(kept)[0] == kept[|kept| - HISTORY_CYCLES];
    }
  }

  /**
   If one page reports the identity, every time, its newest seven readings are retained, and the stabilized
   value is the central one among all of them, padded with the oldest.
   */
  lemma StabilizedOverNewestSeven(packets: seq<Packet>, page: Option<PageId>, index: nat)
    requires SolePage(Log(packets), page, index) && AllReport(OfPage(Log(packets), page), index)
    ensures var kept := History(Readbacks(HistoryAfter(packets)), index);
            && kept == NewestSeven(Readings(Log(packets), index)) && |kept| <= HISTORY_CYCLES
            && CountBelow(Window(kept), Stabilized(kept)) <= 3 && CountAbove(Window(kept), Stabilized(kept)) <= 3
            && (kept != [] ==> exists k :: 0 <= k < |kept| && kept[k].voltage == Stabilized(kept))
  {
    IdentityReadsNewestPages(packets, page, index);
    SolePageReads(Log(packets), page, index);
    NewestReadings(OfPage(Log(packets), page), index);
    StabilizedIsRead(History(Readbacks(HistoryAfter(packets)), index));
  }

  /** The stabilized value is one of the readings in the window, and central among them. */
  lemma StabilizedIsRead(kept: seq<Sample>)
    ensures CountBelow(Window(kept), Stabilized(kept)) <= 3 && CountAbove(Window(kept), Stabilized(kept)) <= 3
    ensures kept != [] ==> exists k :: 0 <= k < |kept| && kept[k].voltage == Stabilized(kept)
  {
    MedianIsCentral(Window(kept));
    if kept != [] {
      var i :| 0 <= i < HISTORY_CYCLES && Window(kept)[i] == Stabilized(kept);
      var k := if i < |kept| then i else 0;
      assert kept[k].voltage == Stabilized(kept);
    }
  }

  // ---------------------------------------------------------------------------------------------
  // An identity on several pages
  // ---------------------------------------------------------------------------------------------

  /** Readback `i` comes from a page of its own, and all of them report identity 0. */
  function Spread(i: nat): Packet {
    Packet(Some(PageId(i, None)), Readback(Some(i), Some([0]), None, None, None), true)
  }

  function Spreads(n: nat): seq<Packet> {
    seq(n, i requires 0 <= i < n => Spread(i))
  }

  /** Without an interruption every tracked readback is logged. */
  lemma {:induction false} UninterruptedIsLogged(ps: seq<Packet>)
    requires forall i | 0 <= i < |ps| :: ps[i].available && Tracked(ps[i])
    ensures Log(ps) == ps
    decreases |ps|
  {
    if ps != [] {
      var before := ps[..|ps| - 1];
      UninterruptedIsLogged(before);
      assert ps == before + [ps[|ps| - 1]];
    }
  }

  lemma {:induction false} AbsentPage(ps: seq<Packet>, page: Option<PageId>)
    requires forall i | 0 <= i < |ps| :: ps[i].page != page
    ensures CountOf(ps, page) == 0
  {
    if ps != [] {
      AbsentPage(ps[1..], page);
    }
  }

  lemma {:induction false} OwnPagesAreKept(ps: seq<Packet>)
    requires forall i, j | 0 <= i < j < |ps| :: ps[i].page != ps[j].page
    ensures Recent(ps) == ps
  {
    if ps != [] {
      OwnPagesAreKept(ps[1..]);
      AbsentPage(ps[1..], ps[0].page);
      RecentHead(ps);
    }
  }

  lemma SpreadsAreRecent(n: nat)
    ensures HistoryAfter(Spreads(n)) == Spreads(n)
  {
    HistoryIsRecent(Spreads(n));
    UninterruptedIsLogged(Spreads(n));
    OwnPagesAreKept(Spreads(n));
  }

  lemma SpreadReports(i: nat)
    ensures Reports(Spread(i).readback, 0) && Reading(Spread(i).readback, 0) == Sample(0, i)
  {
  }

  lemma SpreadsAreRead(n: nat)
    ensures var kept := History(Readbacks(HistoryAfter(Spreads(n))), 0);
            |kept| == n && forall i | 0 <= i < n :: kept[i] == Sample(0, i)
  {
    SpreadsAreRecent(n);
    HistoryIsReadings(Spreads(n), 0);
    forall i | 0 <= i < n
      ensures Reports(Spreads(n)[i].readback, 0) && Reading(Spreads(n)[i].readback, 0) == Sample(0, i)
    {
      SpreadReports(i);
    }
    ReadingsOfAll(Spreads(n), 0);
  }

  /** More than seven pages that report one identity retain as many readings, and the window misses the newest. */
  lemma WindowCanMissNewest(n: nat)
    requires n > HISTORY_CYCLES
    ensures var kept := History(Readbacks(HistoryAfter(Spreads(n))), 0);
            |kept| == n && OldestSeven(kept) != NewestSeven(kept)
  {
    SpreadsAreRead(n);
    WindowHoldsNewest(Spreads(n), 0);
  }

  // ---------------------------------------------------------------------------------------------
  // The state object
  // ---------------------------------------------------------------------------------------------

  class BmsTelemetryState {
    var observationHistory: seq<Packet>
    /** Everything observed so far. */
    ghost var packets: seq<Packet>

    ghost predicate Valid()
      reads this
    {
      observationHistory == HistoryAfter(packets)
    }

    constructor ()
      ensures Valid() && packets == []
    {
      observationHistory, packets := [], [];
    }

    /** Retains exactly the newest seven readbacks of every page since the BMS was last unavailable. */
    method ObserveReadback(p: Packet)
      requires Valid()
      modifies this
      ensures Valid() && packets == old(packets) + [p]
      ensures observationHistory == Recent(Log(packets))
    {
      if !p.available {
        observationHistory := [];
      }
      ObservePage(p);
      packets := packets + [p];
      assert packets[..|packets| - 1] == old(packets);
      HistoryIsRecent(packets);
    }

    method ObservePage(p: Packet)
      modifies this`observationHistory
      ensures observationHistory == if Tracked(p) then Admit(old(observationHistory), p) else old(observationHistory)
    {
      if !Tracked(p) {
        return;
      }
      if CountOf(observationHistory, p.page) == HISTORY_CYCLES {
        observationHistory := WithoutOldest(observationHistory, p.page);
      }
      observationHistory := observationHistory + [p];
    }

    /** The summary lists exactly the identities read in the retained packets, stabilized over them. */
    method ObservationSummary() returns (s: Summary)
      requires Valid()
      ensures Lists(s.observations, Readbacks(Recent(Log(packets))))
    {
      HistoryIsRecent(packets);
      s := Summarize(Readbacks(observationHistory));
    }
  }
}
