/** The diagnostic trouble code table (`include/sero/core/dtc_store.hpp`). */
module DtcStore {
  import opened Words
  import opened Tables

  datatype Dtc = Dtc(code: u16, severity: u8, active: bool, occurrences: u32, firstSeenMs: u32, lastSeenMs: u32)

  const NO_DTC := Dtc(0, 0, false, 0, 0, 0)

  // ----------------------------------------------------------------- specification

  predicate Holds(d: Dtc, code: u16) {
    d.active && d.code == code
  }

  function CodeIndex(s: seq<Dtc>, code: u16): (i: nat)
    ensures i <= |s|
    ensures i < |s| ==> Holds(s[i], code)
    ensures forall k :: 0 <= k < i ==> !Holds(s[k], code)
  {
    if s == [] || Holds(s[0], code) then 0 else 1 + CodeIndex(s[1..], code)
  }

  function Again(d: Dtc, severity: u8, now: u32): Dtc {
    d.(severity := severity, lastSeenMs := now,
       occurrences := if d.occurrences < TWO_32 - 1 then d.occurrences + 1 else d.occurrences)
  }

  function Report(s: seq<Dtc>, capacity: nat, code: u16, severity: u8, now: u32): (seq<Dtc>, bool) {
    var i := CodeIndex(s, code);
    if i < |s| then (s[i := Again(s[i], severity, now)], true)
    else if |s| >= capacity then (s, false)
    else (s + [Dtc(code, severity, true, 1, now, now)], true)
  }

  function Clear(s: seq<Dtc>, code: u16): (seq<Dtc>, bool) {
    var i := CodeIndex(s, code);
    if i < |s| then (SwapRemove(s, i), true) else (s, false)
  }

  // ------------------------------------------------------------------- the object

  class DtcTable {
    const dtcs: array<Dtc>
    var count: nat

    ghost predicate Valid()
      reads this, dtcs
    {
      count <= dtcs.Length && WellFormed(dtcs[..count])
    }

    ghost function Dtcs(): seq<Dtc>
      requires Valid()
      reads this, dtcs
    {
      dtcs[..count]
    }

    constructor (maxDtcs: nat)
      ensures Valid() && Dtcs() == [] && dtcs.Length == maxDtcs && fresh(dtcs)
    {
      dtcs := new Dtc[maxDtcs](_ => NO_DTC);
      count := 0;
    }

    method IndexOf(code: u16) returns (i: nat)
      requires Valid()
      ensures i == CodeIndex(Dtcs(), code)
    {
      i := 0;
      while i < count && !(dtcs[i].active && dtcs[i].code == code)
        invariant i <= count && forall k :: 0 <= k < i ==> !Holds(dtcs[k], code)
      {
        i := i + 1;
      }
      CodeIndexIs(Dtcs(), code, i);
    }

    method ReportDtc(code: u16, severity: u8, now: u32) returns (ok: bool)
      requires Valid()
      modifies this`count, dtcs
      ensures Valid() && (Dtcs(), ok) == Report(old(Dtcs()), dtcs.Length, code, severity, now)
    {
      ReportRefines(Dtcs(), dtcs.Length, code, severity, now);
      var i := IndexOf(code);
      if i < count {
        var d := dtcs[i];
        dtcs[i] := d.(severity := severity, lastSeenMs := now,
                      occurrences := if d.occurrences < TWO_32 - 1 then d.occurrences + 1 else d.occurrences);
        return true;
      }
      if count >= dtcs.Length {
        return false;
      }
      dtcs[count] := Dtc(code, severity, true, 1, now, now);
      count := count + 1;
      assert dtcs[..count] == old(Dtcs()) + [Dtc(code, severity, true, 1, now, now)];
      return true;
    }

    method ClearDtc(code: u16) returns (found: bool)
      requires Valid()
      modifies this`count, dtcs
      ensures Valid() && (Dtcs(), found) == Clear(old(Dtcs()), code)
    {
      ClearRefines(Dtcs(), code);
      var i := IndexOf(code);
      if i == count {
        return false;
      }
      if i != count - 1 {
        dtcs[i] := dtcs[count - 1];
      }
      dtcs[count - 1] := NO_DTC;
      count := count - 1;
      assert dtcs[..count] == SwapRemove(old(Dtcs()), i);
      return true;
    }

    method ClearAll()
      requires Valid()
      modifies this`count, dtcs
      ensures Valid() && Dtcs() == []
      ensures forall k :: 0 <= k < old(count) ==> dtcs[k] == NO_DTC
    {
      for i := 0 to count
        invariant count == old(count) && forall k :: 0 <= k < i ==> dtcs[k] == NO_DTC
      {
        dtcs[i] := NO_DTC;
      }
      count := 0;
    }

    method Find(code: u16) returns (d: Option<Dtc>)
      requires Valid()
      ensures d == DtcOf(Dtcs(), code)
    {
      var i := IndexOf(code);
      d := if i < count then Some(dtcs[i]) else None;
    }
  }

  lemma CodeIndexIs(s: seq<Dtc>, code: u16, i: nat)
    requires i <= |s| && (i < |s| ==> Holds(s[i], code)) && forall k :: 0 <= k < i ==> !Holds(s[k], code)
    ensures CodeIndex(s, code) == i
  {
  }

  // ------------------------------------------------------------------- as a mapping

  /** Only active entries, one per code. */
  ghost predicate WellFormed(s: seq<Dtc>) {
    && (forall i :: 0 <= i < |s| ==> s[i].active)
    && (forall i, j :: 0 <= i < j < |s| ==> s[i].code != s[j].code)
  }

  /** The table as a mapping from codes. */
  function DtcOf(s: seq<Dtc>, code: u16): Option<Dtc> {
    var i := CodeIndex(s, code);
    if i < |s| then Some(s[i]) else None
  }

  lemma DtcAt(s: seq<Dtc>, i: nat)
    requires WellFormed(s) && i < |s|
    ensures DtcOf(s, s[i].code) == Some(s[i])
  {
    CodeIndexIs(s, s[i].code, i);
  }

  /** A report changes what the table says about its code and nothing else: one more
      occurrence, saturating, or a first one; it is refused only for a new code in a full table. */
  lemma ReportRefines(s: seq<Dtc>, capacity: nat, code: u16, severity: u8, now: u32)
    requires WellFormed(s)
    ensures var (s', ok) := Report(s, capacity, code, severity, now);
      && WellFormed(s') && (ok <==> DtcOf(s, code).Some? || |s| < capacity) && (!ok ==> s' == s)
      && (ok ==> DtcOf(s', code) == Some(match DtcOf(s, code)
            case Some(d) => Again(d, severity, now)
            case None => Dtc(code, severity, true, 1, now, now)))
      && forall c: u16 :: c != code ==> DtcOf(s', c) == DtcOf(s, c)
  {
    var (s', ok) := Report(s, capacity, code, severity, now);
    var i := CodeIndex(s, code);
    if ok {
      if i == |s| {
        assert forall k :: 0 <= k < |s| ==> s[k].code != code by {
          assert forall k :: 0 <= k < |s| ==> !Holds(s[k], code);
        }
      }
      DtcAt(s', i);
      forall c: u16 | c != code
        ensures DtcOf(s', c) == DtcOf(s, c)
      {
        CodeIndexIs(s', c, if CodeIndex(s, c) < |s| then CodeIndex(s, c) else |s'|);
      }
    }
  }

  /** Clearing forgets the code and nothing else, although the entries are reordered. */
  lemma ClearRefines(s: seq<Dtc>, code: u16)
    requires WellFormed(s)
    ensures var (s', found) := Clear(s, code);
      && WellFormed(s') && (found <==> DtcOf(s, code).Some?) && DtcOf(s', code) == None
      && |s'| == |s| - (if found then 1 else 0)
      && forall c: u16 :: c != code ==> DtcOf(s', c) == DtcOf(s, c)
  {
    var (s', found) := Clear(s, code);
    var i, last := CodeIndex(s, code), |s| - 1;
    if found {
      CodeIndexIs(s', code, |s'|);
      forall c: u16 | c != code
        ensures DtcOf(s', c) == DtcOf(s, c)
      {
        var k := CodeIndex(s, c);
        if k < |s| {
          DtcAt(s', if k == last then i else k);
        } else {
          assert forall j :: 0 <= j < |s| ==> !Holds(s[j], c);
          CodeIndexIs(s', c, |s'|);
        }
      }
    }
  }

  // -------------------------------------------------------------------- over runs

  datatype Op = ReportOp(code: u16, severity: u8, at: u32) | ClearOp(code: u16) | ClearAllOp

  function Apply(s: seq<Dtc>, capacity: nat, op: Op): (seq<Dtc>, bool) {
    match op
    case ReportOp(code, severity, at) => Report(s, capacity, code, severity, at)
    case ClearOp(code) => Clear(s, code)
    case ClearAllOp => ([], true)
  }

  function After(capacity: nat, run: seq<Op>): seq<Dtc> {
    if run == [] then [] else Apply(After(capacity, run[..|run| - 1]), capacity, run[|run| - 1]).0
  }

  /** The accepted reports of a code since it was last cleared, in order. */
  function Reports(capacity: nat, run: seq<Op>, code: u16): seq<Op> {
    if run == [] then []
    else
      var before, op := run[..|run| - 1], run[|run| - 1];
      if op.ClearAllOp? || op == ClearOp(code) then []
      else if op.ReportOp? && op.code == code && Apply(After(capacity, before), capacity, op).1 then
        Reports(capacity, before, code) + [op]
      else Reports(capacity, before, code)
  }

  /** What the table should say about a code after these reports of it. */
  ghost predicate Summary(d: Option<Dtc>, code: u16, reports: seq<Op>) {
    if reports == [] then d == None
    else
      var first, last := reports[0], reports[|reports| - 1];
      && first.ReportOp? && last.ReportOp?
      && d == Some(Dtc(code, last.severity, true,
                       if |reports| < TWO_32 - 1 then |reports| else TWO_32 - 1, first.at, last.at))
  }

  /** After any run the table holds, for each code, the number of accepted reports since it
      was cleared (saturating), the time of the first and the time and severity of the last. */
  lemma {:induction false} TableSummarizes(capacity: nat, run: seq<Op>, code: u16)
    ensures WellFormed(After(capacity, run)) && |After(capacity, run)| <= capacity
    ensures Summary(DtcOf(After(capacity, run), code), code, Reports(capacity, run, code))
    decreases |run|
  {
    hide DtcOf, WellFormed, Summary, Apply;
    if run == [] {
      EmptyTable(code);
    } else {
      var before, op := run[..|run| - 1], run[|run| - 1];
      TableSummarizes(capacity, before, code);
      ApplyRefines(After(capacity, before), capacity, op, code);
      SummaryStep(After(capacity, before), capacity, op, code, Reports(capacity, before, code));
    }
  }

  lemma ApplyRefines(s: seq<Dtc>, capacity: nat, op: Op, code: u16)
    requires WellFormed(s) && |s| <= capacity
    ensures WellFormed(Apply(s, capacity, op).0) && |Apply(s, capacity, op).0| <= capacity
  {
    hide WellFormed, DtcOf;
    match op
    case ReportOp(c, severity, at) => ReportRefines(s, capacity, c, severity, at);
    case ClearOp(c) => ClearRefines(s, c);
    case ClearAllOp => EmptyTable(code);
  }

  lemma SummaryStep(s: seq<Dtc>, capacity: nat, op: Op, code: u16, reports: seq<Op>)
    requires WellFormed(s) && Summary(DtcOf(s, code), code, reports)
    ensures var (s', ok) := Apply(s, capacity, op);
      Summary(DtcOf(s', code), code,
        if op.ClearAllOp? || op == ClearOp(code) then []
        else if op.ReportOp? && op.code == code && ok then reports + [op] else reports)
  {
    hide WellFormed, DtcOf, Report, Clear;
    match op
    case ReportOp(c, severity, at) => ReportRefines(s, capacity, c, severity, at);
    case ClearOp(c) => ClearRefines(s, c);
    case ClearAllOp => EmptyTable(code);
  }

  lemma EmptyTable(code: u16)
    ensures WellFormed([]) && DtcOf([], code) == None && Summary(None, code, [])
  {
  }
}
