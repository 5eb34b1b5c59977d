/**
 * `scripts/ingest_all_matches.py` `main`: ingest the scoreboards of the
 * first configured `raw_scoreboard` URL (discovered ids, else a fixed id
 * range, else the URL itself), then the schedules of those same ids through
 * a schedule template, configured or derived from the scoreboard URL. The
 * helpers it shares with `scripts/ingest_competitions.py` are in `Discovery`.
 */
module MatchesScript {
  import opened Wrappers
  import opened Http
  import opened PyText
  import opened Partition
  import opened Ingest
  import opened Discovery

  const ScoreboardTable: string := "raw_scoreboard"
  const ScheduleTable: string := "raw_schedule"

  /** `START_ID` and `END_ID`, already converted by `int()` (defaults 580 and 640). */
  datatype Settings = Settings(startId: int, endId: int)

  const Defaults: Settings := Settings(580, 640)

  /** Step 1's outcome: the run state, `scoreboard_ids`, and whether a `format` raised (which ends the script). */
  datatype Step1 = Step1(s: State, ids: seq<int>, crashed: bool)

  /**
   * Step 1 over `endpoints.get('raw_scoreboard', [])`: only the first URL is
   * used. Its base (the URL without a trailing `/<digits>`) is probed; the
   * discovered ids go through the URL's template or `base/{}`; with none, the
   * range `START_ID..END_ID` goes through the URL's template; with no template
   * either, the URL itself is ingested once and no ids are kept.
   */
  function Scoreboard(sbUrls: seq<string>, cfg: Settings, health: Health, probe: Probe, step: StepFn, s: State): Step1
  {
    if sbUrls == [] then Step1(s, [], false)
    else
      var url := sbUrls[0];
      var base := StripTrailingId(url);
      var ids := DiscoveredIds(probe(base));
      if ids != [] then
        var (s', crashed) := IdsEffect(ScoreboardTable, TemplateOr(url, base), ids, health, step, s);
        Step1(s', ids, crashed)
      else
        match MakeTemplate(url)
        case Some(t) =>
          var rng := Range(cfg.startId, cfg.endId);
          var (s', crashed) := IdsEffect(ScoreboardTable, t, rng, health, step, s);
          Step1(s', rng, crashed)
        case None => Step1(step(s, Target(ScoreboardTable, url), 0), [], false)
  }

  /**
   * The schedule template of step 2: from the first `raw_schedule` URL when
   * one is configured, else from the first scoreboard URL with
   * `sasp-scoreboard` replaced by `sasp-schedule`, else none. Each is the
   * URL's template or its base plus `/{}`.
   */
  function ScheduleTemplate(sbUrls: seq<string>, schUrls: seq<string>): (t: Option<string>)
    ensures t.Some? <==> sbUrls != [] || schUrls != []
    ensures t.Some? ==> t.value != []
  {
    if schUrls != [] then Some(TemplateOr(schUrls[0], StripTrailingId(schUrls[0])))
    else if sbUrls != [] then
      var candidate := Replace(sbUrls[0], "sasp-scoreboard", "sasp-schedule");
      Some(TemplateOr(candidate, StripTrailingId(candidate)))
    else None
  }

  /**
   * `main()`: step 1, then, unless it raised, the schedule loop over exactly
   * `scoreboard_ids` when there are ids and a template (`if tpl and
   * scoreboard_ids`). The state's count is `total_inserted`.
   */
  function MainEffect(sbUrls: seq<string>, schUrls: seq<string>, cfg: Settings, health: Health, probe: Probe,
                      step: StepFn, s0: State): (State, bool)
  {
    var r := Scoreboard(sbUrls, cfg, health, probe, step, s0);
    if r.crashed then (r.s, true)
    else
      match ScheduleTemplate(sbUrls, schUrls)
      case Some(t) => if r.ids != [] then IdsEffect(ScheduleTable, t, r.ids, health, step, r.s) else (r.s, false)
      case None => (r.s, false)
  }

  /** Only the first scoreboard URL matters: the others change nothing. */
  lemma OnlyFirstScoreboard(sbUrls: seq<string>, more: seq<string>, schUrls: seq<string>, cfg: Settings,
                            health: Health, probe: Probe, step: StepFn, s0: State)
    requires sbUrls != []
    ensures MainEffect(sbUrls + more, schUrls, cfg, health, probe, step, s0) ==
            MainEffect([sbUrls[0]], schUrls, cfg, health, probe, step, s0)
  {
    assert (sbUrls + more)[0] == [sbUrls[0]][0];
    assert Scoreboard(sbUrls + more, cfg, health, probe, step, s0) == Scoreboard([sbUrls[0]], cfg, health, probe, step, s0);
  }

  /**
   * `scoreboard_ids` are the discovered ids when there are any; otherwise the
   * whole range `START_ID..END_ID` when the URL has a template; otherwise
   * none. Either way they are ascending.
   */
  lemma ScoreboardIds(sbUrls: seq<string>, cfg: Settings, health: Health, probe: Probe, step: StepFn, s: State)
    ensures var r := Scoreboard(sbUrls, cfg, health, probe, step, s);
            Increasing(r.ids) &&
            (sbUrls == [] ==> r.ids == [] && r.s == s && !r.crashed) &&
            (sbUrls != [] ==>
              var found := DiscoveredIds(probe(StripTrailingId(sbUrls[0])));
              (found != [] ==> r.ids == found) &&
              (found == [] && MakeTemplate(sbUrls[0]).Some? ==> r.ids == Range(cfg.startId, cfg.endId)) &&
              (found == [] && MakeTemplate(sbUrls[0]).None? ==> r.ids == [] && !r.crashed))
  {
    var rng := Range(cfg.startId, cfg.endId);
    assert Increasing(rng);
  }

  /** With no scoreboard ids, or no template, the schedule step does nothing. */
  lemma ScheduleSkipped(sbUrls: seq<string>, schUrls: seq<string>, cfg: Settings, health: Health, probe: Probe,
                        step: StepFn, s0: State)
    requires var r := Scoreboard(sbUrls, cfg, health, probe, step, s0);
             r.ids == [] || ScheduleTemplate(sbUrls, schUrls).None?
    ensures MainEffect(sbUrls, schUrls, cfg, health, probe, step, s0).0 == Scoreboard(sbUrls, cfg, health, probe, step, s0).s
  {
  }

  /**
   * The schedule step ingests, in order, the schedule URL of every scoreboard
   * id that formats, except those reported permanently missing.
   */
  lemma ScheduleFollowsScoreboard(sbUrls: seq<string>, schUrls: seq<string>, cfg: Settings, health: Health,
                                  probe: Probe, step: StepFn, s0: State, r: Step1, t: string)
    requires r == Scoreboard(sbUrls, cfg, health, probe, step, s0) && ScheduleTemplate(sbUrls, schUrls) == Some(t)
    requires !r.crashed && r.ids != []
    ensures var stop := FormatStop(t, r.ids);
            MainEffect(sbUrls, schUrls, cfg, health, probe, step, s0) ==
              (Run(r.s, 0, TargetsOf(ScheduleTable, TriedUrls(t, r.ids[..stop], health)), step), stop < |r.ids|) &&
            forall u :: u in TriedUrls(t, r.ids[..stop], health) <==>
              health(u) != Permanent && exists i :: 0 <= i < stop && Format(t, [r.ids[i]]) == Some(u)
  {
    TriedPrefixMeaning(t, r.ids, FormatStop(t, r.ids), health);
  }

  /** The schedule template derived from a scoreboard URL that, after the replacement, ends in an id. */
  lemma DerivedScheduleTemplate(sbUrls: seq<string>, p: string, n: nat, slash: string)
    requires sbUrls != [] && Replace(sbUrls[0], "sasp-scoreboard", "sasp-schedule") == p + NatToString(n) + slash
    requires !HasChar(p, '\n') && (p == [] || !IsDigit(p[|p| - 1]))
    requires slash == "" || slash == "/"
    ensures ScheduleTemplate(sbUrls, []) == Some(p + "{}")
  {
    var candidate := Replace(sbUrls[0], "sasp-scoreboard", "sasp-schedule");
    TemplateOfDigits(p, NatToString(n), slash);
    assert MakeTemplate(candidate) == Some(p + "{}");
  }

  /**
   * The derived schedule template: when no schedule URL is configured and the
   * scoreboard URL, after the replacement, is a one-line brace-free prefix
   * not ending in a digit, an id and an optional '/', the schedule URL of id
   * `m` is that prefix followed by `m`.
   */
  lemma DerivedScheduleUrl(sbUrls: seq<string>, p: string, n: nat, slash: string)
    requires sbUrls != [] && Replace(sbUrls[0], "sasp-scoreboard", "sasp-schedule") == p + NatToString(n) + slash
    requires NoBraces(p) && !HasChar(p, '\n') && (p == [] || !IsDigit(p[|p| - 1]))
    requires slash == "" || slash == "/"
    ensures ScheduleTemplate(sbUrls, []) == Some(p + "{}")
    ensures forall m: nat :: Format(p + "{}", [m]) == Some(p + NatToString(m))
  {
    DerivedScheduleTemplate(sbUrls, p, n, slash);
    FormatEveryId(p);
  }

  /** With a bounded step, step 1 adds at most one True result per scoreboard id, or one for the single URL. */
  lemma ScoreboardBounded(sbUrls: seq<string>, cfg: Settings, health: Health, probe: Probe, step: StepFn, s0: State)
    requires StepBounded(step)
    ensures var r := Scoreboard(sbUrls, cfg, health, probe, step, s0);
            s0.0 <= r.s.0 <= s0.0 + (if r.ids == [] then 1 else |r.ids|) && r.s.1.Keys == s0.1.Keys
  {
    if sbUrls != [] {
      var url := sbUrls[0];
      var base := StripTrailingId(url);
      var found := DiscoveredIds(probe(base));
      if found != [] {
        IdsEffectBounded(ScoreboardTable, TemplateOr(url, base), found, health, step, s0);
      } else if MakeTemplate(url).Some? {
        IdsEffectBounded(ScoreboardTable, MakeTemplate(url).value, Range(cfg.startId, cfg.endId), health, step, s0);
      }
    }
  }

  /** With a bounded step, `total_inserted` counts at most one per scoreboard request and one per schedule request. */
  lemma MainBounded(sbUrls: seq<string>, schUrls: seq<string>, cfg: Settings, health: Health, probe: Probe,
                    step: StepFn, s0: State)
    requires StepBounded(step)
    ensures var r := MainEffect(sbUrls, schUrls, cfg, health, probe, step, s0).0;
            var ids := Scoreboard(sbUrls, cfg, health, probe, step, s0).ids;
            s0.0 <= r.0 <= s0.0 + (if ids == [] then 1 else 2 * |ids|) && r.1.Keys == s0.1.Keys
  {
    var r := Scoreboard(sbUrls, cfg, health, probe, step, s0);
    ScoreboardBounded(sbUrls, cfg, health, probe, step, s0);
    var t := ScheduleTemplate(sbUrls, schUrls);
    if !r.crashed && r.ids != [] && t.Some? {
      IdsEffectBounded(ScheduleTable, t.value, r.ids, health, step, r.s);
    }
  }

  /** Step 1 as the script runs it. */
  method IngestScoreboards(sbUrls: seq<string>, cfg: Settings, health: Health, probe: Probe, step: StepFn, s0: State)
    returns (r: Step1)
    ensures r == Scoreboard(sbUrls, cfg, health, probe, step, s0)
  {
    if sbUrls == [] {
      return Step1(s0, [], false);
    }
    var url := sbUrls[0];
    var base := StripTrailingId(url);
    var ids := TryDiscoverIds(probe(base));
    var tried, crashed, s;
    if ids != [] {
      var tpl := TemplateOr(url, base);
      tried, crashed, s := IngestIdsLoop(ScoreboardTable, tpl, ids, health, step, s0);
      return Step1(s, ids, crashed);
    }
    var tpl := MakeTemplate(url);
    if tpl.Some? {
      var rng := Range(cfg.startId, cfg.endId);
      tried, crashed, s := IngestIdsLoop(ScoreboardTable, tpl.value, rng, health, step, s0);
      return Step1(s, rng, crashed);
    }
    return Step1(step(s0, Target(ScoreboardTable, url), 0), [], false);
  }

  /** `main()` as the script runs it: the run state (its count is `total_inserted`) and whether a `format` raised. */
  method IngestAllMatches(sbUrls: seq<string>, schUrls: seq<string>, cfg: Settings, health: Health, probe: Probe,
                          step: StepFn, s0: State)
    returns (s: State, crashed: bool)
    ensures (s, crashed) == MainEffect(sbUrls, schUrls, cfg, health, probe, step, s0)
  {
    var r := IngestScoreboards(sbUrls, cfg, health, probe, step, s0);
    if r.crashed {
      return r.s, true;
    }
    var tpl := ScheduleTemplate(sbUrls, schUrls);
    s, crashed := r.s, false;
    if tpl.Some? && r.ids != [] {
      var tried;
      tried, crashed, s := IngestIdsLoop(ScheduleTable, tpl.value, r.ids, health, step, r.s);
    }
  }
}
