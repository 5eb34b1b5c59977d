/**
 * `scripts/ingest_teams_range.py`: ingest the team URL of every id from
 * `START_ID` to `END_ID` into `raw_teams`, skipping URLs known to be
 * permanently missing, and count the inserts.
 */
module TeamsRange {
  import opened Wrappers
  import opened Http
  import opened PyText
  import opened Partition
  import opened Ingest
  import opened Discovery

  const TeamsTable: string := "raw_teams"

  /** The part of the default `TEAMS_URL_TEMPLATE` before its `{}`. */
  const DefaultPrefix: string := "https://virtual.sssfonline.com/api/teams/"

  /** `START_ID`, `END_ID` (already converted by `int()`) and `TEAMS_URL_TEMPLATE`. */
  datatype Settings = Settings(start: int, end: int, template: string)

  const Defaults: Settings := Settings(1800, 1900, DefaultPrefix + "{}")

  /** `main()`'s loop: the new run state (its count is `inserted`) and whether a `format` raised. */
  function RangeEffect(cfg: Settings, health: Health, step: StepFn, s0: State): (State, bool)
  {
    IdsEffect(TeamsTable, cfg.template, Range(cfg.start, cfg.end), health, step, s0)
  }

  /**
   * `main()`: for each id of `START..END` ascending, the formatted URL is
   * skipped when reported permanently missing (a failed check falls
   * through), and otherwise ingested, request `k` of the loop being the
   * `k`-th URL ingested.
   */
  method IngestTeamsRange(cfg: Settings, health: Health, step: StepFn, s0: State) returns (s: State, crashed: bool)
    ensures (s, crashed) == RangeEffect(cfg, health, step, s0)
  {
    var tried;
    tried, crashed, s := IngestIdsLoop(TeamsTable, cfg.template, Range(cfg.start, cfg.end), health, step, s0);
  }

  /** The default template is a brace-free prefix followed by `{}`. */
  lemma DefaultTemplatePlain()
    ensures NoBraces(DefaultPrefix) && Defaults.template == DefaultPrefix + "{}"
  {
  }

  /** URLs tried through a template that writes each id after a fixed prefix. */
  lemma PrefixUrls(start: int, end: int, template: string, p: string, health: Health)
    requires forall n :: Format(template, [n]) == Some(p + IntToString(n))
    ensures var ids := Range(start, end);
            forall u :: u in TriedUrls(template, ids, health) <==>
              health(u) != Permanent && exists id :: start <= id <= end && u == p + IntToString(id)
  {
    var ids := Range(start, end);
    TriedUrlsMeaning(template, ids, health);
    forall u | u in TriedUrls(template, ids, health)
      ensures exists id :: start <= id <= end && u == p + IntToString(id)
    {
      var i :| 0 <= i < |ids| && Format(template, [ids[i]]) == Some(u);
      assert start <= ids[i] <= end;
    }
    forall u | health(u) != Permanent && exists id :: start <= id <= end && u == p + IntToString(id)
      ensures u in TriedUrls(template, ids, health)
    {
      var id :| start <= id <= end && u == p + IntToString(id);
      assert Format(template, [ids[id - start]]) == Some(u);
    }
  }

  /** Through a brace-free prefix plus `{}` or `{0}`, the URLs ingested are those of the ids of `start..end` not reported permanently missing. */
  lemma PlainTemplateUrls(start: int, end: int, p: string, f: string, health: Health)
    requires NoBraces(p) && (f == "{}" || f == "{0}")
    ensures var ids := Range(start, end);
            (forall i :: 0 <= i < |ids| ==> Format(p + f, [ids[i]]).Some?) &&
            forall u :: u in TriedUrls(p + f, ids, health) <==>
              health(u) != Permanent && exists id :: start <= id <= end && u == p + IntToString(id)
  {
    forall n
      ensures Format(p + f, [n]) == Some(p + IntToString(n))
    {
      FormatPrefixField(p, f, n);
    }
    PrefixUrls(start, end, p + f, p, health);
  }

  /**
   * With a template made of a brace-free prefix and `{}` or `{0}`, such as the default
   * one, the loop never raises, and the URLs ingested are, in ascending id
   * order, those of the ids of `start..end` that are not reported
   * permanently missing; a failed check counts as not missing.
   */
  lemma PlainTemplateRange(start: int, end: int, p: string, f: string, health: Health, step: StepFn, s0: State)
    requires NoBraces(p) && (f == "{}" || f == "{0}")
    ensures var ids := Range(start, end);
            (forall i :: 0 <= i < |ids| ==> Format(p + f, [ids[i]]).Some?) &&
            var urls := TriedUrls(p + f, ids, health);
            RangeEffect(Settings(start, end, p + f), health, step, s0) == (Run(s0, 0, TargetsOf(TeamsTable, urls), step), false) &&
            forall u :: u in urls <==> health(u) != Permanent && exists id :: start <= id <= end && u == p + IntToString(id)
  {
    var ids := Range(start, end);
    PlainTemplateUrls(start, end, p, f, health);
    PrefixTemplateTried(p, f, ids, health);
    assert ids[..|ids|] == ids;
  }

  /** With a bounded step, `inserted` counts at most one insert per id: `inserted ≤ END − START + 1`. */
  lemma InsertedBounded(cfg: Settings, health: Health, step: StepFn, s0: State)
    requires StepBounded(step)
    ensures var r := RangeEffect(cfg, health, step, s0).0;
            s0.0 <= r.0 <= s0.0 + (if cfg.start <= cfg.end then cfg.end - cfg.start + 1 else 0) && r.1.Keys == s0.1.Keys
  {
    IdsEffectBounded(TeamsTable, cfg.template, Range(cfg.start, cfg.end), health, step, s0);
  }
}
