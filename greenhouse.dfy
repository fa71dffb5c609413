/**
 * The greenhouse scheduler. The day is cut into chunks of `minutesPerChunk`
 * minutes; every behavior gets one Boolean variable per chunk; the four
 * constraint builders are dispatched by level (their bodies are empty in the
 * original, so they add nothing); and a solution is reported as the active
 * (behavior index, chunk) pairs and, when a schedule file is named, as the
 * lines `<Name>Behavior HH:MM-HH:MM` written to it.
 */
module Greenhouse {
  import opened Wrappers
  import opened Dicts
  import opened Strings
  import opened CpSat

  /** `behaviors_info[b]`: minimum minutes to run, (min, max) spacing, night cap in minutes. */
  datatype BehaviorInfo = BehaviorInfo(duration: int, spacing: (int, int), maxNight: int)

  /** The Boolean "behavior `behavior` runs during chunk `t`". */
  datatype GVar = Active(behavior: string, t: int)

  const MinutesPerDay := 24 * 60

  /** Python's `a // b`: the quotient rounded towards minus infinity. */
  function FloorDiv(a: int, b: int): (q: int)
    requires b != 0
    ensures b > 0 ==> b * q <= a < b * q + b
    ensures b < 0 ==> b * q + b < a <= b * q
  {
    if b > 0 then a / b else (-a) / (-b)
  }

  /** `24*60 // minutes_per_chunk`: the number of whole chunks in a day. */
  function Horizon(minutesPerChunk: int): (h: int)
    requires minutesPerChunk != 0
    ensures minutesPerChunk > 0 ==> h * minutesPerChunk <= MinutesPerDay < (h + 1) * minutesPerChunk
  {
    FloorDiv(MinutesPerDay, minutesPerChunk)
  }

  /** A chunk length that divides the day splits it into exactly `Horizon` chunks, with no remainder. */
  lemma WholeDayHorizon(minutesPerChunk: int)
    requires minutesPerChunk > 0 && MinutesPerDay % minutesPerChunk == 0
    ensures Horizon(minutesPerChunk) * minutesPerChunk == MinutesPerDay
  {
    assert Horizon(minutesPerChunk) == MinutesPerDay / minutesPerChunk;
  }

  // ---------------------------------------------------------------------
  // createVariables

  /** The declarations of chunks `0 .. n-1` of one behavior, in chunk order. */
  function ChunkDecls(b: string, n: int): seq<Decl<GVar>>
    decreases n
  {
    if n <= 0 then [] else ChunkDecls(b, n - 1) + [Decl(Active(b, n - 1), 0, 1)]
  }

  /** The declarations of every behavior, each over chunks `0 .. h-1`. */
  function ActiveDecls(bs: seq<string>, h: int): seq<Decl<GVar>> {
    if bs == [] then [] else ActiveDecls(bs[..|bs| - 1], h) + ChunkDecls(bs[|bs| - 1], h)
  }

  function ChunkTable(b: string, n: int): map<(string, int), GVar>
    decreases n
  {
    if n <= 0 then map[] else ChunkTable(b, n - 1)[(b, n - 1) := Active(b, n - 1)]
  }

  /** `all_jobs` */
  function VarTable(bs: seq<string>, h: int): map<(string, int), GVar> {
    if bs == [] then map[] else VarTable(bs[..|bs| - 1], h) + ChunkTable(bs[|bs| - 1], h)
  }

  ghost predicate Distinct<T>(s: seq<T>) {
    forall i, j :: 0 <= i < j < |s| ==> s[i] != s[j]
  }

  lemma {:induction false} ChunkDeclsMeaning(b: string, n: int)
    ensures |ChunkDecls(b, n)| == if n < 0 then 0 else n
    ensures forall t :: 0 <= t < n ==> ChunkDecls(b, n)[t] == Decl(Active(b, t), 0, 1)
    decreases n
  {
    if n > 0 {
      ChunkDeclsMeaning(b, n - 1);
    }
  }

  lemma {:induction false} ActiveDeclsLength(bs: seq<string>, h: int)
    requires h >= 0
    ensures |ActiveDecls(bs, h)| == |bs| * h
  {
    if bs != [] {
      ActiveDeclsLength(bs[..|bs| - 1], h);
      ChunkDeclsMeaning(bs[|bs| - 1], h);
      assert |bs| * h == (|bs| - 1) * h + h;
    }
  }

  lemma {:induction false} ActiveDeclsMember(bs: seq<string>, h: int)
    requires h >= 0
    ensures forall d: Decl<GVar> :: d in ActiveDecls(bs, h) <==> d.lo == 0 && d.hi == 1 && d.v.behavior in bs && 0 <= d.v.t < h
  {
    if bs != [] {
      var init, b := bs[..|bs| - 1], bs[|bs| - 1];
      ActiveDeclsMember(init, h);
      ChunkDeclsMeaning(b, h);
      var ds, cs := ActiveDecls(init, h), ChunkDecls(b, h);
      assert bs == init + [b];
      forall d: Decl<GVar> ensures d in ds + cs <==> d.lo == 0 && d.hi == 1 && d.v.behavior in bs && 0 <= d.v.t < h {
        if d.lo == 0 && d.hi == 1 && d.v.behavior == b && 0 <= d.v.t < h {
          assert cs[d.v.t] == d;
        }
        if d in cs {
          var k :| 0 <= k < |cs| && cs[k] == d;
        }
      }
    }
  }

  lemma {:induction false} ActiveDeclsDistinct(bs: seq<string>, h: int)
    requires h >= 0 && Distinct(bs)
    ensures Distinct(ActiveDecls(bs, h))
  {
    if bs != [] {
      var init, b := bs[..|bs| - 1], bs[|bs| - 1];
      assert Distinct(init) by {
        forall i, j | 0 <= i < j < |init| ensures init[i] != init[j] {
          assert init[i] == bs[i] && init[j] == bs[j];
        }
      }
      ActiveDeclsDistinct(init, h);
      ActiveDeclsMember(init, h);
      ChunkDeclsMeaning(b, h);
      var ds, cs := ActiveDecls(init, h), ChunkDecls(b, h);
      assert b !in init by {
        forall k | 0 <= k < |init| ensures init[k] != b {
          assert bs[k] == init[k] && bs[|bs| - 1] == b;
        }
      }
      forall i, j | 0 <= i < j < |ds + cs| ensures (ds + cs)[i] != (ds + cs)[j] {
        if j < |ds| {
          assert (ds + cs)[i] == ds[i] && (ds + cs)[j] == ds[j];
        } else if i >= |ds| {
          assert (ds + cs)[i] == cs[i - |ds|] && (ds + cs)[j] == cs[j - |ds|];
        } else {
          assert (ds + cs)[j] == cs[j - |ds|];
          assert (ds + cs)[i] == ds[i];
          assert ds[i] in ds;
        }
      }
    }
  }

  /**
   * createVariables declares exactly one Boolean for each behavior and each
   * chunk `0 <= t < h`, and no two declarations coincide when the behaviors
   * are distinct.
   */
  lemma ActiveDeclsMeaning(bs: seq<string>, h: int)
    requires h >= 0
    ensures |ActiveDecls(bs, h)| == |bs| * h
    ensures forall d: Decl<GVar> :: d in ActiveDecls(bs, h) <==> d.lo == 0 && d.hi == 1 && d.v.behavior in bs && 0 <= d.v.t < h
    ensures Distinct(bs) ==> Distinct(ActiveDecls(bs, h))
  {
    ActiveDeclsLength(bs, h);
    ActiveDeclsMember(bs, h);
    if Distinct(bs) {
      ActiveDeclsDistinct(bs, h);
    }
  }

  lemma {:induction false} ChunkTableMeaning(b: string, n: int)
    ensures forall k :: k in ChunkTable(b, n) <==> k.0 == b && 0 <= k.1 < n
    ensures forall k :: k in ChunkTable(b, n) ==> ChunkTable(b, n)[k] == Active(k.0, k.1)
    decreases n
  {
    if n > 0 {
      ChunkTableMeaning(b, n - 1);
    }
  }

  /** `all_jobs[b, t]` exists exactly for the declared pairs, and is that pair's Boolean. */
  lemma {:induction false} VarTableMeaning(bs: seq<string>, h: int)
    ensures forall k :: k in VarTable(bs, h) <==> k.0 in bs && 0 <= k.1 < h
    ensures forall k :: k in VarTable(bs, h) ==> VarTable(bs, h)[k] == Active(k.0, k.1)
  {
    if bs != [] {
      var init := bs[..|bs| - 1];
      VarTableMeaning(init, h);
      ChunkTableMeaning(bs[|bs| - 1], h);
      assert bs == init + [bs[|bs| - 1]];
    }
  }

  lemma VarTableAt(bs: seq<string>, h: int, b: string, t: int)
    requires b in bs && 0 <= t < h
    ensures (b, t) in VarTable(bs, h) && VarTable(bs, h)[(b, t)] == Active(b, t)
  {
    VarTableMeaning(bs, h);
  }

  /** Every chunk of behavior `b` below `n` has its own Boolean in `tbl`. */
  ghost predicate ChunkCovers(tbl: map<(string, int), GVar>, b: string, n: int) {
    forall t :: 0 <= t < n ==> (b, t) in tbl && tbl[(b, t)] == Active(b, t)
  }

  lemma VarTableCovers(bs: seq<string>, h: int, b: string)
    requires b in bs
    ensures ChunkCovers(VarTable(bs, h), b, h)
  {
    forall t | 0 <= t < h ensures (b, t) in VarTable(bs, h) && VarTable(bs, h)[(b, t)] == Active(b, t) {
      VarTableAt(bs, h, b, t);
    }
  }

  // ---------------------------------------------------------------------
  // createModel: level dispatch

  /** The builders createModel calls at a level: 1 duration, 2 mutual exclusion, 3 night, 4 spacing. */
  function Dispatched(level: int): seq<int> {
    if level < 1 then [] else if level >= 4 then [1, 2, 3, 4] else Dispatched(level - 1) + [level]
  }

  /** Builder `k` runs exactly when the level reaches `k`, and the builders are cumulative. */
  lemma {:induction false} DispatchCumulative(level: int)
    ensures forall k :: k in Dispatched(level) <==> 1 <= k <= 4 && k <= level
    ensures Dispatched(level) <= Dispatched(level + 1)
    decreases if level < 0 then 0 else level
  {
    if 1 <= level < 4 {
      DispatchCumulative(level - 1);
    }
  }

  // ---------------------------------------------------------------------
  // solve: the active chunks and the schedule file

  /** The chunks below `n` in which behavior `b` is active, in increasing order. */
  function ActiveChunks(a: GVar -> int, b: string, n: int): seq<nat>
    decreases n
  {
    if n <= 0 then [] else ActiveChunks(a, b, n - 1) + if a(Active(b, n - 1)) > 0 then [n - 1] else []
  }

  function Pairs(i: int, ts: seq<int>): (r: seq<(int, int)>)
    ensures |r| == |ts| && forall k :: 0 <= k < |ts| ==> r[k] == (i, ts[k])
  {
    if ts == [] then [] else Pairs(i, ts[..|ts| - 1]) + [(i, ts[|ts| - 1])]
  }

  /** The keys of `assigned_jobs_list`: `(i, t)` stands for `greenhouse_scheduler.py`'s `(i, i, t/2.)`. */
  function Assigned(a: GVar -> int, bs: seq<string>, h: int): seq<(int, int)> {
    if bs == [] then [] else Assigned(a, bs[..|bs| - 1], h) + Pairs(|bs| - 1, ActiveChunks(a, bs[|bs| - 1], h))
  }

  /** The clock label of the start of chunk `t`, counting half hours. */
  function Label(t: nat): string {
    (if t < 20 then "0" else "") + NatToString(t / 2) + (if t % 2 == 0 then ":00" else ":30")
  }

  function ChunkLine(b: string, t: nat): string {
    b + "Behavior " + Label(t) + "-" + Label(t + 1)
  }

  function BehaviorLines(b: string, ts: seq<nat>): seq<string> {
    if ts == [] then [] else BehaviorLines(b, ts[..|ts| - 1]) + [ChunkLine(b, ts[|ts| - 1])]
  }

  /** The lines of the schedule file; each behavior's block ends with a blank line. */
  function ScheduleLines(a: GVar -> int, bs: seq<string>, h: int): seq<string> {
    if bs == [] then []
    else ScheduleLines(a, bs[..|bs| - 1], h) + BehaviorLines(bs[|bs| - 1], ActiveChunks(a, bs[|bs| - 1], h)) + [""]
  }

  /** A chunk is listed exactly when its Boolean is positive, and the chunks increase. */
  lemma {:induction false} ActiveChunksMeaning(a: GVar -> int, b: string, n: int)
    ensures forall t :: t in ActiveChunks(a, b, n) <==> 0 <= t < n && a(Active(b, t)) > 0
    ensures forall i, j :: 0 <= i < j < |ActiveChunks(a, b, n)| ==> ActiveChunks(a, b, n)[i] < ActiveChunks(a, b, n)[j]
    decreases n
  {
    if n > 0 {
      ActiveChunksMeaning(a, b, n - 1);
      var p := ActiveChunks(a, b, n - 1);
      assert forall i :: 0 <= i < |p| ==> p[i] in p;
    }
  }

  /** The result holds one pair per active (behavior, chunk) and nothing else. */
  lemma {:induction false} AssignedMeaning(a: GVar -> int, bs: seq<string>, h: int)
    ensures forall p :: p in Assigned(a, bs, h) <==> 0 <= p.0 < |bs| && 0 <= p.1 < h && a(Active(bs[p.0], p.1)) > 0
  {
    if bs != [] {
      var init, b := bs[..|bs| - 1], bs[|bs| - 1];
      AssignedMeaning(a, init, h);
      ActiveChunksMeaning(a, b, h);
      var ps := Pairs(|bs| - 1, ActiveChunks(a, b, h));
      forall p: (int, int) ensures p in Assigned(a, bs, h) <==> 0 <= p.0 < |bs| && 0 <= p.1 < h && a(Active(bs[p.0], p.1)) > 0 {
        if p in ps {
          var k :| 0 <= k < |ps| && ps[k] == p;
        }
        if p.0 == |bs| - 1 && 0 <= p.1 < h && a(Active(b, p.1)) > 0 {
          var cs := ActiveChunks(a, b, h);
          var k :| 0 <= k < |cs| && cs[k] == p.1;
          assert ps[k] == p;
        }
        if 0 <= p.0 < |init| {
          assert bs[p.0] == init[p.0];
        }
      }
    }
  }

  lemma BehaviorLinesSnoc(b: string, ts: seq<nat>, t: nat)
    ensures BehaviorLines(b, ts + [t]) == BehaviorLines(b, ts) + [ChunkLine(b, t)]
  {
    assert (ts + [t])[..|ts|] == ts;
  }

  /** One more behavior of the outer loop of solve: its pairs and its block of lines are appended. */
  lemma BehaviorStep(a: GVar -> int, bs: seq<string>, h: int, i: int, save: bool,
                     pairs: seq<(int, int)>, written: seq<string>)
    requires 0 <= i < |bs|
    requires pairs == Assigned(a, bs[..i], h) && written == if save then ScheduleLines(a, bs[..i], h) else []
    ensures pairs + Pairs(i, ActiveChunks(a, bs[i], h)) == Assigned(a, bs[..i + 1], h)
    ensures (if save then written + BehaviorLines(bs[i], ActiveChunks(a, bs[i], h)) + [""] else written)
            == if save then ScheduleLines(a, bs[..i + 1], h) else []
  {
    assert bs[..i + 1][..i] == bs[..i] && bs[..i + 1][i] == bs[i];
  }

  /** What the inner loop of solve has built after the chunks below `t`. */
  ghost predicate ChunksSoFar(a: GVar -> int, b: string, i: int, t: int, save: bool,
                              cs: seq<nat>, ps: seq<(int, int)>, ls: seq<string>) {
    && cs == ActiveChunks(a, b, t)
    && ps == Pairs(i, cs)
    && ls == if save then BehaviorLines(b, cs) else []
  }

  /** One more chunk of that loop: an active chunk adds its pair and, when saving, its line. */
  lemma ChunkStep(a: GVar -> int, b: string, i: int, t: nat, save: bool,
                  cs: seq<nat>, ps: seq<(int, int)>, ls: seq<string>, on: bool)
    requires ChunksSoFar(a, b, i, t, save, cs, ps, ls) && on == (a(Active(b, t)) > 0)
    ensures ChunksSoFar(a, b, i, t + 1, save,
                        if on then cs + [t] else cs,
                        if on then ps + [(i, t)] else ps,
                        if on && save then ls + [ChunkLine(b, t)] else ls)
  {
    if on {
      BehaviorLinesSnoc(b, cs, t);
      assert (cs + [t])[..|cs|] == cs;
    } else {
      assert cs + [] == cs;
    }
  }

  lemma {:induction false} BehaviorLinesLength(b: string, ts: seq<nat>)
    ensures |BehaviorLines(b, ts)| == |ts|
  {
    if ts != [] {
      BehaviorLinesLength(b, ts[..|ts| - 1]);
    }
  }

  /** The file has one line per active chunk plus one blank line per behavior. */
  lemma {:induction false} ScheduleLinesLength(a: GVar -> int, bs: seq<string>, h: int)
    ensures |ScheduleLines(a, bs, h)| == |Assigned(a, bs, h)| + |bs|
  {
    if bs != [] {
      ScheduleLinesLength(a, bs[..|bs| - 1], h);
      BehaviorLinesLength(bs[|bs| - 1], ActiveChunks(a, bs[|bs| - 1], h));
    }
  }

  /** The minutes after midnight a clock string `H:MM` denotes, or -1 when it has no single colon. */
  function ClockMinutes(s: string): int {
    var ps := Split(s, ':');
    if |ps| != 2 then -1 else DigitsValue(ps[0]) * 60 + DigitsValue(ps[1])
  }

  lemma {:induction false} LeadingZero(s: string)
    ensures DigitsValue("0" + s) == DigitsValue(s)
  {
    if s != [] {
      LeadingZero(s[..|s| - 1]);
      assert ("0" + s)[..|"0" + s| - 1] == "0" + s[..|s| - 1];
    }
  }

  /** A label made of two digit strings around one colon reads back as hours and minutes. */
  lemma ClockOfParts(hh: string, mm: string)
    requires forall i :: 0 <= i < |hh| ==> '0' <= hh[i] <= '9'
    requires forall i :: 0 <= i < |mm| ==> '0' <= mm[i] <= '9'
    ensures ClockMinutes(hh + ":" + mm) == DigitsValue(hh) * 60 + DigitsValue(mm)
  {
    assert Join([hh, mm], ':') == hh + ":" + mm;
    SplitJoin([hh, mm], ':');
  }

  /** The hour part of the label of chunk `t` reads back as `t / 2`. */
  lemma HourValue(t: nat)
    ensures DigitsValue((if t < 20 then "0" else "") + NatToString(t / 2)) == t / 2
  {
    NatToStringValue(t / 2);
    if t < 20 {
      LeadingZero(NatToString(t / 2));
    } else {
      assert "" + NatToString(t / 2) == NatToString(t / 2);
    }
  }

  lemma MinuteValue()
    ensures DigitsValue("00") == 0 && DigitsValue("30") == 30
  {
    assert "00"[..1] == "0" && "30"[..1] == "3" && "0"[..0] == "3"[..0] == "";
  }

  /** The label of chunk `t` is the clock time `30 * t` minutes after midnight. */
  lemma {:induction false} LabelClock(t: nat)
    ensures ClockMinutes(Label(t)) == 30 * t
  {
    var hh := (if t < 20 then "0" else "") + NatToString(t / 2);
    var mm := if t % 2 == 0 then "00" else "30";
    assert Label(t) == hh + ":" + mm;
    assert forall i :: 0 <= i < |hh| ==> '0' <= hh[i] <= '9';
    ClockOfParts(hh, mm);
    HourValue(t);
    MinuteValue();
    var q, r := t / 2, t % 2;
    assert t == 2 * q + r;
    assert DigitsValue(mm) == 30 * r;
  }

  /**
   * Over a half-hour day the labels of chunk boundaries 0 .. Horizon(30) run
   * from midnight to the end of the day, strictly increasing, and only the
   * last boundary reads the full 24 hours.
   */
  lemma DayLabels(t: nat, u: nat)
    requires t < u <= Horizon(30)
    ensures 0 <= ClockMinutes(Label(t)) < ClockMinutes(Label(u)) <= MinutesPerDay
    ensures ClockMinutes(Label(u)) == MinutesPerDay <==> u == Horizon(30)
  {
    WholeDayHorizon(30);
    LabelClock(t);
    LabelClock(u);
  }

  // ---------------------------------------------------------------------
  // The scheduler object

  class GreenhouseScheduler {
    const behaviorsInfo: Dict<string, BehaviorInfo>
    const minutesPerChunk: int
    const horizon: int
    const schedFile: Option<string>

    var model: Model<GVar>
    var allJobs: map<(string, int), GVar>
    /** The constraint builders createModel has called, in order. */
    ghost var ran: seq<int>

    function Behaviors(): seq<string> {
      Keys(behaviorsInfo)
    }

    ghost predicate VarsCreated()
      reads this`allJobs
    {
      allJobs == VarTable(Behaviors(), horizon)
    }

    /** `__init__`: computes the horizon and builds the model at `maxConstraint`. */
    constructor (behaviorsInfo: Dict<string, BehaviorInfo>, minutesPerChunk: int, schedFile: Option<string>,
                 maxConstraint: int)
      requires minutesPerChunk != 0
      ensures this.behaviorsInfo == behaviorsInfo && this.minutesPerChunk == minutesPerChunk
      ensures this.schedFile == schedFile && horizon == Horizon(minutesPerChunk)
      ensures VarsCreated()
      ensures model == Model(ActiveDecls(Behaviors(), horizon), [], None)
      ensures ran == Dispatched(maxConstraint)
    {
      this.behaviorsInfo := behaviorsInfo;
      this.minutesPerChunk := minutesPerChunk;
      horizon := FloorDiv(MinutesPerDay, minutesPerChunk);
      this.schedFile := schedFile;
      model := EmptyModel();
      allJobs := map[];
      ran := [];
      new;
      CreateModel(maxConstraint);
    }

    /** createModel: a fresh model, its variables, then the builders the level enables. */
    method CreateModel(level: int)
      modifies this`model, this`allJobs, this`ran
      ensures VarsCreated()
      ensures model == Model(ActiveDecls(Behaviors(), horizon), [], None)
      ensures ran == Dispatched(level)
    {
      model := EmptyModel();
      ran := [];
      CreateVariables();
      assert [] + ActiveDecls(Behaviors(), horizon) == ActiveDecls(Behaviors(), horizon);
      if level >= 1 { CreateDurationConstraints(); }
      if level >= 2 { CreateMutualExclusiveConstraints(); }
      if level >= 3 { CreateNightConstraints(); }
      if level >= 4 { CreateSpacingConstraints(); }
    }

    /** createVariables: one Boolean per behavior and chunk, in behavior then chunk order. */
    method CreateVariables()
      modifies this`model, this`allJobs
      ensures VarsCreated()
      ensures model == old(model).(decls := old(model).decls + ActiveDecls(Behaviors(), horizon))
    {
      var bs := Behaviors();
      var tbl: map<(string, int), GVar> := map[];
      var m := model;
      for i := 0 to |bs|
        invariant tbl == VarTable(bs[..i], horizon)
        invariant m == old(model).(decls := old(model).decls + ActiveDecls(bs[..i], horizon))
      {
        tbl, m := AddChunkVars(tbl, m, bs[i], horizon);
        assert bs[..i + 1][..i] == bs[..i];
        assert old(model).decls + ActiveDecls(bs[..i], horizon) + ChunkDecls(bs[i], horizon)
            == old(model).decls + (ActiveDecls(bs[..i], horizon) + ChunkDecls(bs[i], horizon));
      }
      assert bs[..|bs|] == bs;
      allJobs, model := tbl, m;
    }

    /** The inner loop of createVariables: the Booleans of one behavior. */
    static method AddChunkVars(tbl: map<(string, int), GVar>, m: Model<GVar>, b: string, h: int)
      returns (tbl': map<(string, int), GVar>, m': Model<GVar>)
      ensures tbl' == tbl + ChunkTable(b, h)
      ensures m' == m.(decls := m.decls + ChunkDecls(b, h))
    {
      tbl', m' := tbl, m;
      var t := 0;
      while t < h
        invariant 0 <= t && (h >= 0 ==> t <= h) && (h < 0 ==> t == 0)
        invariant tbl' == tbl + ChunkTable(b, t)
        invariant m' == m.(decls := m.decls + ChunkDecls(b, t))
      {
        tbl' := tbl'[(b, t) := Active(b, t)];
        m' := NewVar(m', Active(b, t), 0, 1);
        assert m.decls + ChunkDecls(b, t) + [Decl(Active(b, t), 0, 1)] == m.decls + ChunkDecls(b, t + 1);
        t := t + 1;
      }
      if h < 0 {
        assert ChunkTable(b, h) == ChunkTable(b, t) && ChunkDecls(b, h) == ChunkDecls(b, t);
      }
    }

    /** createDurationConstraints: its body is empty in `greenhouse_scheduler.py`. */
    method CreateDurationConstraints()
      modifies this`ran
      ensures ran == old(ran) + [1]
    {
      ran := ran + [1];
    }

    /** createMutualExclusiveConstraints: its body is empty in `greenhouse_scheduler.py`. */
    method CreateMutualExclusiveConstraints()
      modifies this`ran
      ensures ran == old(ran) + [2]
    {
      ran := ran + [2];
    }

    /** createNightConstraints: its body is empty in `greenhouse_scheduler.py`. */
    method CreateNightConstraints()
      modifies this`ran
      ensures ran == old(ran) + [3]
    {
      ran := ran + [3];
    }

    /** createSpacingConstraints: its body is empty in `greenhouse_scheduler.py`. */
    method CreateSpacingConstraints()
      modifies this`ran
      ensures ran == old(ran) + [4]
    {
      ran := ran + [4];
    }

    /**
     * solve: None when the search reports infeasibility; otherwise the active
     * (behavior, chunk) pairs, and the schedule file's lines when a file is named.
     */
    method Solve(solver: Model<GVar> -> SolveResult<GVar>) returns (found: Option<seq<(int, int)>>, written: seq<string>)
      requires VarsCreated()
      ensures var r := solver(model);
        && (r.status == Infeasible ==> found == None && written == [])
        && (r.status != Infeasible ==>
              && found == Some(Assigned(r.values, Behaviors(), horizon))
              && written == if schedFile.Some? then ScheduleLines(r.values, Behaviors(), horizon) else [])
    {
      var r := solver(model);
      if r.status == Infeasible {
        return None, [];
      }
      var save := schedFile.Some?;
      var bs := Behaviors();
      var pairs: seq<(int, int)> := [];
      written := [];
      for i := 0 to |bs|
        invariant pairs == Assigned(r.values, bs[..i], horizon)
        invariant written == if save then ScheduleLines(r.values, bs[..i], horizon) else []
      {
        assert bs[i] in bs;
        VarTableCovers(bs, horizon, bs[i]);
        var ps, ls := BehaviorChunks(allJobs, horizon, r.values, i, bs[i], save);
        BehaviorStep(r.values, bs, horizon, i, save, pairs, written);
        pairs := pairs + ps;
        written := if save then written + ls + [""] else written;
      }
      assert bs[..|bs|] == bs;
      found := Some(pairs);
    }

    /** The inner loop of solve for the `i`-th behavior. */
    static method BehaviorChunks(tbl: map<(string, int), GVar>, h: int,
                                 a: GVar -> int, i: int, b: string, save: bool)
      returns (ps: seq<(int, int)>, ls: seq<string>)
      requires ChunkCovers(tbl, b, h)
      ensures ps == Pairs(i, ActiveChunks(a, b, h))
      ensures ls == if save then BehaviorLines(b, ActiveChunks(a, b, h)) else []
    {
      ps, ls := [], [];
      ghost var cs: seq<nat> := [];
      var t := 0;
      while t < h
        invariant 0 <= t && (h >= 0 ==> t <= h) && (h < 0 ==> t == 0)
        invariant ChunksSoFar(a, b, i, t, save, cs, ps, ls)
      {
        assert tbl[(b, t)] == Active(b, t);
        var on := a(tbl[(b, t)]) > 0;
        ChunkStep(a, b, i, t, save, cs, ps, ls, on);
        ps := if on then ps + [(i, t)] else ps;
        ls := if on && save then ls + [ChunkLine(b, t)] else ls;
        cs := if on then cs + [t] else cs;
        t := t + 1;
      }
      if h < 0 {
        assert ActiveChunks(a, b, h) == [];
      }
    }
  }
}
