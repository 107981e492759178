/** The completion watcher (internal/completion/completion.go) and the sentinel protocol it runs
    with the session's closing script (internal/dispatch/prompt.go). */
module Completion {
  import opened Tasks
  import T = Text

  const MAX_SENTINEL := 64
  const MAX_SUMMARY := 64 * 1024
  const MAX_DISPLAY := 64

  // ---- what the watcher makes of the files it reads ----

  datatype Entry = Absent | Regular(text: string) | SymbolicLink | Special

  datatype Reading = Content(text: string) | NotExist | LinkRefused | NotRegular | TooLarge | OtherError

  /** What Lstat says of the control directory. */
  datatype Kind = RealDirectory | LinkedDirectory | NotDirectory | Unseen

  datatype Verdict = Wait | Fail(reason: string) | Finish(summary: string)

  function ReadBounded(e: Entry, max: nat, broken: bool): Reading {
    match e
    case Absent => NotExist
    case SymbolicLink => LinkRefused
    case Special => if broken then OtherError else NotRegular
    case Regular(text) => if broken then OtherError else if |text| > max then TooLarge else Content(text)
  }

  function TruncateForDisplay(s: string): string {
    if |s| <= MAX_DISPLAY then s else s[..MAX_DISPLAY] + "...(truncated)"
  }

  const SENTINEL_IS_LINK := "completion: .exit_code rejected (refused to follow symlink)"
  const SENTINEL_NOT_REGULAR := "completion: .exit_code rejected (not a regular file)"
  const SENTINEL_TOO_LARGE := "completion: .exit_code rejected (exceeds 64 bytes)"

  function LinkedDirReason(base: string): (reason: string)
    ensures reason != ""
  {
    "completion: workspace dir rejected (refused to follow symlink at " + base + ")"
  }

  function NotDirReason(base: string): (reason: string)
    ensures reason != ""
  {
    "completion: workspace dir rejected (not a directory at " + base + ")"
  }

  function ParseReason(raw: string, explain: string -> string): string {
    "completion: parse .exit_code failed: " + explain(TruncateForDisplay(raw))
  }

  function NonZeroReason(code: int): string {
    "completion: claude exited non-zero exit_code=" + T.Itoa(code)
  }

  /** What the sentinel alone says; `None` means that the exit code is 0.  `explain` renders a
      parse failure. */
  function SentinelVerdict(sentinel: Reading, explain: string -> string): T.Option<Verdict> {
    match sentinel
    case NotExist | OtherError => T.Some(Wait)
    case LinkRefused => T.Some(Fail(SENTINEL_IS_LINK))
    case NotRegular => T.Some(Fail(SENTINEL_NOT_REGULAR))
    case TooLarge => T.Some(Fail(SENTINEL_TOO_LARGE))
    case Content(text) =>
      CodeVerdict(T.TrimSpace(text), explain)
  }

  function CodeVerdict(raw: string, explain: string -> string): T.Option<Verdict> {
    match T.Atoi(raw)
    case None => T.Some(Fail(ParseReason(raw, explain)))
    case Some(code) => if code != 0 then T.Some(Fail(NonZeroReason(code))) else T.None
  }

  function SummaryOf(summary: Reading): string {
    if summary.Content? then T.TrimSpace(summary.text) else ""
  }

  /** What one look at a control directory shows. */
  datatype Look = Look(kind: Kind, base: string, sentinel: Reading, summary: Reading)

  function Judge(look: Look, explain: string -> string): Verdict {
    match look.kind
    case LinkedDirectory =>
      Fail(LinkedDirReason(look.base))
    case NotDirectory =>
      Fail(NotDirReason(look.base))
    case _ =>
      Concluded(SentinelVerdict(look.sentinel, explain), look.summary)
  }

  function Concluded(verdict: T.Option<Verdict>, summary: Reading): Verdict {
    match verdict
    case Some(v) => v
    case None => Finish(SummaryOf(summary))
  }

  // ---- the watcher ----

  /** The row a verdict leaves behind when the store does not fail. */
  function Settled(task: Task, verdict: Verdict, now: Time): Task {
    match verdict
    case Wait => task
    case Fail(reason) =>
      task.(status := Failed, judgmentReason := reason, completedAt := if now == 0 then task.completedAt else now)
    case Finish(summary) =>
      if now == 0 then task else task.(status := Done, resultSummary := summary, completedAt := now)
  }

  /** A verdict on `id` took effect in full, or in part when the store faulted. */
  predicate SettledUnlessFaulted(rows: Rows, rows': Rows, id: Id, verdict: Verdict, now: Time, faulted: bool) {
    && rows'.Keys == rows.Keys
    && (forall j | j in rows && j != id :: rows'[j] == rows[j])
    && (id in rows ==>
          || rows'[id] == Settled(rows[id], verdict, now)
          || (faulted && rows'[id] in {rows[id], Settled(rows[id], verdict, 0)}))
  }

  /** The row a look at a readable sentinel leaves, read column by column.  The store refuses the
      zero time. */
  lemma SettledReads(before: Task, look: Look, explain: string -> string, now: Time)
    requires !look.kind.LinkedDirectory? && !look.kind.NotDirectory? && look.sentinel.Content?
    ensures var after := Settled(before, Judge(look, explain), now);
      match T.Atoi(T.TrimSpace(look.sentinel.text))
      case None => after == before.(
        status := Failed, completedAt := if now == 0 then before.completedAt else now,
        judgmentReason := "completion: parse .exit_code failed: "
          + explain(TruncateForDisplay(T.TrimSpace(look.sentinel.text))))
      case Some(code) =>
        if code != 0 then after == before.(
          status := Failed, completedAt := if now == 0 then before.completedAt else now,
          judgmentReason := "completion: claude exited non-zero exit_code=" + T.Itoa(code))
        else if now == 0 then after == before
        else after == before.(
          status := Done, completedAt := now,
          resultSummary := if look.summary.Content? then T.TrimSpace(look.summary.text) else "")
  {
    ConcludedReads(T.TrimSpace(look.sentinel.text), look.summary, explain);
  }

  lemma ConcludedReads(raw: string, summary: Reading, explain: string -> string)
    ensures Concluded(CodeVerdict(raw, explain), summary) ==
      match T.Atoi(raw)
      case None => Fail("completion: parse .exit_code failed: " + explain(TruncateForDisplay(raw)))
      case Some(code) =>
        if code != 0 then Fail("completion: claude exited non-zero exit_code=" + T.Itoa(code))
        else Finish(if summary.Content? then T.TrimSpace(summary.text) else "")
  {
  }

  /** Any other look: the row fails for the reason named, or waits. */
  lemma RejectedReads(before: Task, look: Look, explain: string -> string, now: Time)
    requires look.kind.LinkedDirectory? || look.kind.NotDirectory? || !look.sentinel.Content?
    ensures Settled(before, Judge(look, explain), now) ==
      var stamp := if now == 0 then before.completedAt else now;
      if look.kind.LinkedDirectory? then before.(
        status := Failed, completedAt := stamp,
        judgmentReason := "completion: workspace dir rejected (refused to follow symlink at " + look.base + ")")
      else if look.kind.NotDirectory? then before.(
        status := Failed, completedAt := stamp,
        judgmentReason := "completion: workspace dir rejected (not a directory at " + look.base + ")")
      else if look.sentinel.LinkRefused? then before.(
        status := Failed, completedAt := stamp,
        judgmentReason := "completion: .exit_code rejected (refused to follow symlink)")
      else if look.sentinel.NotRegular? then before.(
        status := Failed, completedAt := stamp,
        judgmentReason := "completion: .exit_code rejected (not a regular file)")
      else if look.sentinel.TooLarge? then before.(
        status := Failed, completedAt := stamp,
        judgmentReason := "completion: .exit_code rejected (exceeds 64 bytes)")
      else before
  {
  }

  lemma LookReads(before: Task, look: Look, explain: string -> string, now: Time)
    ensures look.kind.RealDirectory? && look.sentinel.Content? ==>
      var after, code := Settled(before, Judge(look, explain), now), T.Atoi(T.TrimSpace(look.sentinel.text));
      && (after.status == Done && before.status != Done ==> code == T.Some(0))
      && (now != 0 && code == T.Some(0) ==>
            && after.status == Done && after.completedAt == now
            && after.resultSummary == if look.summary.Content? then T.TrimSpace(look.summary.text) else "")
      && (code.Some? && code.value != 0 ==>
            && after.status == Failed && (now != 0 ==> after.completedAt == now)
            && after.judgmentReason == "completion: claude exited non-zero exit_code=" + T.Itoa(code.value))
      && (code.None? ==> after.status == Failed && (now != 0 ==> after.completedAt == now))
    ensures look.kind.RealDirectory? && !look.sentinel.Content? ==>
      var after := Settled(before, Judge(look, explain), now);
      if look.sentinel.NotExist? || look.sentinel.OtherError? then after == before
      else after.status == Failed && (now != 0 ==> after.completedAt == now)
    ensures look.kind.LinkedDirectory? || look.kind.NotDirectory? ==>
      var after := Settled(before, Judge(look, explain), now);
      after.status == Failed && (now != 0 ==> after.completedAt == now)
  {
    if look.kind.LinkedDirectory? || look.kind.NotDirectory? || !look.sentinel.Content? {
      RejectedReads(before, look, explain, now);
    } else {
      SettledReads(before, look, explain, now);
    }
  }

  class Watcher {
    const repo: TaskRepo
    const explain: string -> string

    constructor (repo: TaskRepo, explain: string -> string)
      ensures this.repo == repo && this.explain == explain
    {
      this.repo, this.explain := repo, explain;
    }

    method MarkFailed(id: Id, reason: string, now: Time)
      requires reason != ""
      modifies repo
      ensures repo.nextId == old(repo.nextId) && (old(repo.faulted) ==> repo.faulted)
      ensures SettledUnlessFaulted(old(repo.rows), repo.rows, id, Fail(reason), now, repo.faulted)
    {
      var err := repo.MarkFailedWithReason(id, reason);
      if err != Nil { return; }
      var _ := repo.SetCompletedAt(id, now);
    }

    method CheckOne(id: Id, look: Look, now: Time)
      modifies repo
      ensures repo.nextId == old(repo.nextId) && (old(repo.faulted) ==> repo.faulted)
      ensures SettledUnlessFaulted(old(repo.rows), repo.rows, id, Judge(look, explain), now, repo.faulted)
      // a sentinel that was read
      ensures look.kind.RealDirectory? && look.sentinel.Content? && id in repo.rows ==>
        var code := T.Atoi(T.TrimSpace(look.sentinel.text));
        && (repo.rows[id].status == Done && old(repo.rows)[id].status != Done ==> code == T.Some(0))
        && (!repo.faulted && now != 0 && code == T.Some(0) ==>
              && repo.rows[id].status == Done && repo.rows[id].completedAt == now
              && repo.rows[id].resultSummary == if look.summary.Content? then T.TrimSpace(look.summary.text) else "")
        && (!repo.faulted && code.Some? && code.value != 0 ==>
              && repo.rows[id].status == Failed && (now != 0 ==> repo.rows[id].completedAt == now)
              && repo.rows[id].judgmentReason == "completion: claude exited non-zero exit_code=" + T.Itoa(code.value))
        && (!repo.faulted && code.None? ==>
              repo.rows[id].status == Failed && (now != 0 ==> repo.rows[id].completedAt == now))
      // one that was rejected, one that is absent or cannot be read now, and a directory that is none
      ensures look.kind.RealDirectory? && !look.sentinel.Content? && !repo.faulted && id in repo.rows ==>
        if look.sentinel.NotExist? || look.sentinel.OtherError? then repo.rows[id] == old(repo.rows)[id]
        else repo.rows[id].status == Failed && (now != 0 ==> repo.rows[id].completedAt == now)
      ensures (look.kind.LinkedDirectory? || look.kind.NotDirectory?) && !repo.faulted && id in repo.rows ==>
        repo.rows[id].status == Failed && (now != 0 ==> repo.rows[id].completedAt == now)
      ensures forall j | j in repo.rows && j != id :: j in old(repo.rows) && repo.rows[j] == old(repo.rows)[j]
    {
      if id in repo.rows {
        LookReads(repo.rows[id], look, explain, now);
        LookReads(repo.rows[id], look, explain, 0);
      }
      if look.kind.LinkedDirectory? {
        MarkFailed(id, LinkedDirReason(look.base), now);
        return;
      }
      if look.kind.NotDirectory? {
        MarkFailed(id, NotDirReason(look.base), now);
        return;
      }
      CheckSentinel(id, look.sentinel, look.summary, now);
    }

    method CheckSentinel(id: Id, sentinel: Reading, summary: Reading, now: Time)
      modifies repo
      ensures repo.nextId == old(repo.nextId) && (old(repo.faulted) ==> repo.faulted)
      ensures SettledUnlessFaulted(old(repo.rows), repo.rows, id,
                                   Concluded(SentinelVerdict(sentinel, explain), summary), now, repo.faulted)
    {
      if sentinel.NotExist? { return; }
      if sentinel.LinkRefused? {
        MarkFailed(id, SENTINEL_IS_LINK, now);
        return;
      }
      if sentinel.NotRegular? {
        MarkFailed(id, SENTINEL_NOT_REGULAR, now);
        return;
      }
      if sentinel.TooLarge? {
        MarkFailed(id, SENTINEL_TOO_LARGE, now);
        return;
      }
      if sentinel.OtherError? { return; }
      CheckCode(id, T.TrimSpace(sentinel.text), summary, now);
    }

    method CheckCode(id: Id, raw: string, summary: Reading, now: Time)
      modifies repo
      ensures repo.nextId == old(repo.nextId) && (old(repo.faulted) ==> repo.faulted)
      ensures SettledUnlessFaulted(old(repo.rows), repo.rows, id,
                                   Concluded(CodeVerdict(raw, explain), summary), now, repo.faulted)
    {
      var code := T.Atoi(raw);
      if code.None? {
        MarkFailed(id, ParseReason(raw, explain), now);
        return;
      }
      if code.value != 0 {
        MarkFailed(id, NonZeroReason(code.value), now);
        return;
      }
      var _ := repo.MarkDoneWithSummary(id, SummaryOf(summary), now);
    }

    /** One scan: every running row, and no other, is settled by what its own directory shows. */
    method Tick(look: Id -> Look, now: Time) returns (err: Error)
      modifies repo
      ensures repo.nextId == old(repo.nextId) && (old(repo.faulted) ==> repo.faulted)
      ensures repo.rows.Keys == old(repo.rows).Keys
      ensures err in {Nil, Error.Fault} && (err == Error.Fault ==> repo.faulted && repo.rows == old(repo.rows))
      ensures forall j | j in repo.rows && old(repo.rows)[j].status != Running :: repo.rows[j] == old(repo.rows)[j]
      ensures !repo.faulted ==> forall j | j in repo.rows && old(repo.rows)[j].status == Running ::
        repo.rows[j] == Settled(old(repo.rows)[j], Judge(look(j), explain), now)
      ensures !repo.faulted && now != 0 ==>
        forall j | j in repo.rows && old(repo.rows)[j].status == Running && look(j).kind.RealDirectory? ::
          && (repo.rows[j].status == Done <==>
                look(j).sentinel.Content? && T.Atoi(T.TrimSpace(look(j).sentinel.text)) == T.Some(0))
          && (repo.rows[j].status == Done ==>
                && repo.rows[j].completedAt == now
                && repo.rows[j].resultSummary ==
                     if look(j).summary.Content? then T.TrimSpace(look(j).summary.text) else "")
          && (repo.rows[j].status == Running <==> look(j).sentinel.NotExist? || look(j).sentinel.OtherError?)
    {
      ghost var before := repo.rows;
      var f := ListFilter([Running], 0, false);
      var ids;
      ids, err := repo.List(f);
      if err != Nil { return; }
      ListingDistinct(before, f, ids);
      for i := 0 to |ids|
        invariant repo.nextId == old(repo.nextId) && (old(repo.faulted) ==> repo.faulted)
        invariant Scanned(before, repo.rows, ids[..i], look, now, repo.faulted)
      {
        assert ids[i] !in ids[..i];
        assert ids[..i + 1] == ids[..i] + [ids[i]];
        ghost var rows, faulted := repo.rows, repo.faulted;
        CheckOne(ids[i], look(ids[i]), now);
        ScannedNext(before, rows, repo.rows, ids[..i], ids[i], look, now, faulted, repo.faulted);
      }
      assert ids[..|ids|] == ids;
      assert forall j | j in before && before[j].status == Running :: j in ids;
      TickReads(before, look, now);
    }

    lemma TickReads(before: Rows, look: Id -> Look, now: Time)
      ensures now != 0 ==> forall j | j in before && before[j].status == Running && look(j).kind.RealDirectory? ::
        var after := Settled(before[j], Judge(look(j), explain), now);
        && (after.status == Done <==>
              look(j).sentinel.Content? && T.Atoi(T.TrimSpace(look(j).sentinel.text)) == T.Some(0))
        && (after.status == Done ==>
              && after.completedAt == now
              && after.resultSummary == if look(j).summary.Content? then T.TrimSpace(look(j).summary.text) else "")
        && (after.status == Running <==> look(j).sentinel.NotExist? || look(j).sentinel.OtherError?)
    {
      forall j | j in before { LookReads(before[j], look(j), explain, now); }
    }

    lemma ScannedNext(before: Rows, rows: Rows, rows': Rows, ids: seq<Id>, id: Id, look: Id -> Look, now: Time,
                      faulted: bool, faulted': bool)
      requires Scanned(before, rows, ids, look, now, faulted) && id !in ids && (faulted ==> faulted')
      requires SettledUnlessFaulted(rows, rows', id, Judge(look(id), explain), now, faulted')
      ensures Scanned(before, rows', ids + [id], look, now, faulted')
    {
    }

    ghost predicate Scanned(before: Rows, rows: Rows, ids: seq<Id>, look: Id -> Look, now: Time, faulted: bool) {
      && rows.Keys == before.Keys
      && (forall j | j in before && j !in ids :: rows[j] == before[j])
      && (!faulted ==> forall j | j in ids && j in before ::
            rows[j] == Settled(before[j], Judge(look(j), explain), now))
    }
  }

  // ---- the protocol ----

  /** How far the closing script has got; `Summary` and `Temp` count the bytes written so far. */
  datatype Phase = Working | Chosen | Summary(n: nat) | Temp(n: nat) | Published | Stopped

  datatype Watch = Idle | SawZero | ToFinish(summary: string, missed: bool) | ToFail(reason: string)

  datatype Outcome = Open | DoneWith(summary: string, missed: bool) | FailedWith(reason: string)

  datatype Files = Files(exitCode: Entry, temp: Entry, summary: Entry)

  /** `torn`: the script went on although its summary had not been written in full.  `leftover` is
      the summary file the session found. */
  datatype Sys = Sys(
    phase: Phase,
    code: int,
    text: string,
    torn: bool,
    leftover: Entry,
    files: Files,
    watch: Watch,
    outcome: Outcome)

  datatype Action =
    | Choose(code: int, text: string)
    | OpenSummary
    | WriteSummary(n: nat)
    | OpenTemp
    | WriteTemp(n: nat)
    | Rename
    | Crash
    | LookAtSentinel(broken: bool)
    | LookAtSummary(broken: bool)
    | Commit(stored: bool)
    | WatcherCrash

  function Line(code: int): string {
    T.Itoa(code) + "\n"
  }

  predicate Enabled(s: Sys, a: Action) {
    match a
    case Choose(code, _) => s.phase.Working? && 0 <= code < 256
    case OpenSummary => s.phase.Chosen?
    case WriteSummary(n) => s.phase.Summary? && s.phase.n < n <= |s.text|
    case OpenTemp => s.phase.Chosen? || s.phase.Summary?
    case WriteTemp(n) => s.phase.Temp? && s.phase.n < n <= |Line(s.code)|
    case Rename => s.phase == Temp(|Line(s.code)|)
    case Crash => s.phase != Published
    case LookAtSentinel(_) => s.watch.Idle? && s.outcome.Open?
    case LookAtSummary(_) => s.watch.SawZero?
    case Commit(_) => s.watch.ToFinish? || s.watch.ToFail?
    case WatcherCrash => true
  }

  function Apply(s: Sys, a: Action, explain: string -> string): Sys
    requires Enabled(s, a)
  {
    match a
    case Choose(code, text) => s.(phase := Chosen, code := code, text := text)
    case OpenSummary => s.(phase := Summary(0), files := s.files.(summary := Regular("")))
    case WriteSummary(n) => s.(phase := Summary(n), files := s.files.(summary := Regular(s.text[..n])))
    case OpenTemp =>
      s.(phase := Temp(0), torn := s.phase != Summary(|s.text|), files := s.files.(temp := Regular("")))
    case WriteTemp(n) => s.(phase := Temp(n), files := s.files.(temp := Regular(Line(s.code)[..n])))
    case Rename => s.(phase := Published, files := s.files.(exitCode := s.files.temp, temp := Absent))
    case Crash => s.(phase := Stopped)
    case LookAtSentinel(broken) =>
      s.(watch := match SentinelVerdict(ReadBounded(s.files.exitCode, MAX_SENTINEL, broken), explain)
                  case None => SawZero
                  case Some(verdict) => if verdict.Fail? then ToFail(verdict.reason) else Idle)
    case LookAtSummary(broken) =>
      s.(watch := ToFinish(SummaryOf(ReadBounded(s.files.summary, MAX_SUMMARY, broken)), broken))
    case Commit(stored) =>
      s.(watch := Idle, outcome :=
           if !stored then s.outcome
           else if s.watch.ToFinish? then DoneWith(s.watch.summary, s.watch.missed)
           else FailedWith(s.watch.reason))
    case WatcherCrash => s.(watch := Idle)
  }

  ghost predicate Steps(s: Sys, acts: seq<Action>, t: Sys, explain: string -> string)
    decreases |acts|
  {
    if acts == [] then s == t
    else Enabled(s, acts[0]) && Steps(Apply(s, acts[0], explain), acts[1..], t, explain)
  }

  /** A freshly dispatched session, with whatever the control directory held before. */
  function Start(files: Files): Sys {
    Sys(Working, 0, "", false, files.summary, files, Idle, Open)
  }

  /** The summary a reader without read errors shows for the file. */
  function Shown(e: Entry): string {
    SummaryOf(ReadBounded(e, MAX_SUMMARY, false))
  }

  predicate Faithful(s: Sys, summary: string, missed: bool) {
    summary == Shown(s.files.summary) || (missed && summary == "")
  }

  /** The summary file holds a part of the script's summary, or is the one that was there. */
  predicate PartOf(s: Sys) {
    s.files.summary == s.leftover || (s.files.summary.Regular? && s.files.summary.text <= s.text)
  }

  ghost predicate Inv(s: Sys) {
    && PartOf(s) && (s.phase.Working? ==> s.files.summary == s.leftover)
    && 0 <= s.code < 256
    && (s.phase.Summary? ==> s.phase.n <= |s.text| && s.files.summary == Regular(s.text[..s.phase.n]))
    && (s.phase.Temp? ==> s.phase.n <= |Line(s.code)| && s.files.temp == Regular(Line(s.code)[..s.phase.n]))
    && (s.phase.Temp? || s.phase.Published? ==> s.torn || s.files.summary == Regular(s.text))
    && s.files.exitCode == (if s.phase.Published? then Regular(Line(s.code)) else Absent)
    && (s.watch.SawZero? ==> s.phase.Published? && s.code == 0)
    && (s.watch.ToFinish? ==> s.phase.Published? && s.code == 0 && Faithful(s, s.watch.summary, s.watch.missed))
    && (s.watch.ToFail? ==> s.phase.Published? && s.code != 0 && s.watch.reason == NonZeroReason(s.code))
    && (s.outcome.DoneWith? ==> s.phase.Published? && s.code == 0 && Faithful(s, s.outcome.summary, s.outcome.missed))
    && (s.outcome.FailedWith? ==> s.phase.Published? && s.code != 0 && s.outcome.reason == NonZeroReason(s.code))
  }

  lemma LineTrims(code: int)
    requires 0 <= code < 256
    ensures |Line(code)| <= MAX_SENTINEL && T.TrimSpace(Line(code)) == T.Itoa(code)
  {
    ShortCode(code);
    assert "" + T.Itoa(code) + "\n" == Line(code);
    T.TrimPadded("", T.Itoa(code), "\n");
  }

  lemma TextReads(text: string, code: int, explain: string -> string)
    requires |text| <= MAX_SENTINEL && T.Atoi(T.TrimSpace(text)) == T.Some(code)
    ensures SentinelVerdict(ReadBounded(Regular(text), MAX_SENTINEL, false), explain)
      == if code == 0 then T.None else T.Some(Fail(NonZeroReason(code)))
  {
  }

  lemma LineParses(code: int)
    requires 0 <= code < 256
    ensures |Line(code)| <= MAX_SENTINEL && T.Atoi(T.TrimSpace(Line(code))) == T.Some(code)
  {
    LineTrims(code);
    T.ItoaParses(code);
  }

  /** The watcher reads the line the script writes as the code it was given: it never rejects
      it and never fails to parse it. */
  lemma LineReads(code: int, explain: string -> string)
    requires 0 <= code < 256
    ensures SentinelVerdict(ReadBounded(Regular(Line(code)), MAX_SENTINEL, false), explain)
      == if code == 0 then T.None else T.Some(Fail(NonZeroReason(code)))
  {
    LineParses(code);
    TextReads(Line(code), code, explain);
  }

  lemma ShortCode(code: int)
    requires 0 <= code < 256
    ensures 1 <= |T.Itoa(code)| <= 3
    ensures !T.IsSpace(T.Itoa(code)[0]) && !T.IsSpace(T.Itoa(code)[|T.Itoa(code)| - 1])
  {
    assert code / 10 / 10 < 10;
    assert |T.Natural(code / 10 / 10)| == 1;
    assert |T.Natural(code / 10)| <= 2;
  }

  predicate OfScript(a: Action) {
    a.Choose? || a.OpenSummary? || a.WriteSummary? || a.OpenTemp? || a.WriteTemp? || a.Rename? || a.Crash?
  }

  lemma ScriptKeepsInv(s: Sys, a: Action, explain: string -> string)
    requires Inv(s) && Enabled(s, a) && OfScript(a)
    ensures Inv(Apply(s, a, explain))
  {
    match a
    case OpenTemp => if s.phase.Summary? { Whole(s.text); }
    case Rename => Whole(Line(s.code));
    case _ =>
  }

  lemma Whole(s: string)
    ensures s[..|s|] == s
  {
  }

  lemma SentinelLook(s: Sys, broken: bool, explain: string -> string)
    requires Inv(s)
    ensures SentinelVerdict(ReadBounded(s.files.exitCode, MAX_SENTINEL, broken), explain)
      == if broken || !s.phase.Published? then T.Some(Wait)
         else if s.code == 0 then T.None else T.Some(Fail(NonZeroReason(s.code)))
  {
    if s.phase.Published? && !broken {
      LineReads(s.code, explain);
    }
  }

  lemma LookKeepsInv(s: Sys, broken: bool, explain: string -> string)
    requires Inv(s) && Enabled(s, LookAtSentinel(broken))
    ensures Inv(Apply(s, LookAtSentinel(broken), explain))
  {
    SentinelLook(s, broken, explain);
  }

  lemma SummaryKeepsInv(s: Sys, broken: bool, explain: string -> string)
    requires Inv(s) && Enabled(s, LookAtSummary(broken))
    ensures Inv(Apply(s, LookAtSummary(broken), explain))
  {
  }

  lemma CommitKeepsInv(s: Sys, stored: bool, explain: string -> string)
    requires Inv(s) && Enabled(s, Commit(stored))
    ensures Inv(Apply(s, Commit(stored), explain))
  {
  }

  lemma ApplyKeepsInv(s: Sys, a: Action, explain: string -> string)
    requires Inv(s) && Enabled(s, a)
    ensures Inv(Apply(s, a, explain))
  {
    if OfScript(a) {
      ScriptKeepsInv(s, a, explain);
    } else if a.LookAtSentinel? {
      LookKeepsInv(s, a.broken, explain);
    } else if a.LookAtSummary? {
      SummaryKeepsInv(s, a.broken, explain);
    } else if a.Commit? {
      CommitKeepsInv(s, a.stored, explain);
    } else {
      assert Apply(s, a, explain) == s.(watch := Idle);
    }
  }

  lemma {:induction false} StepsKeepInv(s: Sys, acts: seq<Action>, t: Sys, explain: string -> string)
    requires Inv(s) && Steps(s, acts, t, explain)
    ensures Inv(t)
    decreases |acts|
  {
    if acts != [] {
      ApplyKeepsInv(s, acts[0], explain);
      StepsKeepInv(Apply(s, acts[0], explain), acts[1..], t, explain);
    }
  }

  /** Publication: from a directory without a sentinel, whatever the interleaving, the crashes
      and the read errors, a row is done only after code 0 was published, with the complete
      trimmed summary if the script wrote one in full (empty when it is over the cap or the read
      failed) and else with what the file shows, a part of it or an older summary; and failed only
      after the non-zero code it names was published. */
  lemma SettlesWhatWasPublished(files: Files, acts: seq<Action>, t: Sys, explain: string -> string)
    requires files.exitCode.Absent? && Steps(Start(files), acts, t, explain)
    ensures t.outcome.DoneWith? ==>
      && t.phase.Published? && t.code == 0
      && (!t.torn && !t.outcome.missed ==>
            t.outcome.summary == if |t.text| <= MAX_SUMMARY then T.TrimSpace(t.text) else "")
      && (!t.outcome.missed ==> t.outcome.summary == Shown(t.files.summary))
      && (t.outcome.missed ==> t.outcome.summary in {"", Shown(t.files.summary)})
      && (t.files.summary == files.summary || (t.files.summary.Regular? && t.files.summary.text <= t.text))
    ensures t.outcome.FailedWith? ==>
      t.phase.Published? && t.code != 0 && t.outcome.reason == NonZeroReason(t.code)
  {
    StepsKeepInv(Start(files), acts, t, explain);
    LeftoverStays(Start(files), acts, t, explain);
  }

  lemma {:induction false} LeftoverStays(s: Sys, acts: seq<Action>, t: Sys, explain: string -> string)
    requires Steps(s, acts, t, explain)
    ensures t.leftover == s.leftover
    decreases |acts|
  {
    if acts != [] { LeftoverStays(Apply(s, acts[0], explain), acts[1..], t, explain); }
  }

  lemma StepsCons(s: Sys, a: Action, acts: seq<Action>, t: Sys, explain: string -> string)
    requires Enabled(s, a) && Steps(Apply(s, a, explain), acts, t, explain)
    ensures Steps(s, [a] + acts, t, explain)
  {
    assert ([a] + acts)[1..] == acts;
  }

  /** One look without errors that ends with a stored result. */
  lemma OneLook(s: Sys, explain: string -> string) returns (acts: seq<Action>, t: Sys)
    requires s.watch.Idle? && s.outcome.Open?
    requires var v := SentinelVerdict(ReadBounded(s.files.exitCode, MAX_SENTINEL, false), explain);
      v.None? || v.value.Fail?
    ensures Steps(s, acts, t, explain) && t.phase == s.phase
    ensures var v := SentinelVerdict(ReadBounded(s.files.exitCode, MAX_SENTINEL, false), explain);
      t.outcome == if v.None? then DoneWith(Shown(s.files.summary), false) else FailedWith(v.value.reason)
  {
    var s1 := Apply(s, LookAtSentinel(false), explain);
    var s2 := if s1.watch.SawZero? then Apply(s1, LookAtSummary(false), explain) else s1;
    t := Apply(s2, Commit(true), explain);
    StepsCons(s2, Commit(true), [], t, explain);
    acts := [Commit(true)] + [];
    if s1.watch.SawZero? {
      StepsCons(s1, LookAtSummary(false), acts, t, explain);
      acts := [LookAtSummary(false)] + acts;
    }
    StepsCons(s, LookAtSentinel(false), acts, t, explain);
    acts := [LookAtSentinel(false)] + acts;
  }

  /** After publication one look without errors settles the row. */
  lemma PublishedSettles(files: Files, acts: seq<Action>, t: Sys, explain: string -> string)
    returns (more: seq<Action>, u: Sys)
    requires files.exitCode.Absent? && Steps(Start(files), acts, t, explain)
    requires t.phase.Published? && t.watch.Idle? && t.outcome.Open?
    ensures Steps(t, more, u, explain)
    ensures u.outcome ==
      if t.code == 0 then DoneWith(Shown(t.files.summary), false) else FailedWith(NonZeroReason(t.code))
  {
    StepsKeepInv(Start(files), acts, t, explain);
    LineReads(t.code, explain);
    more, u := OneLook(t, explain);
  }

  /** The watcher's look at the directory of a session that has published, whatever else the run has
      done: the running row ends done if and only if the published code is 0, with the summary the
      protocol shows, and otherwise failed, for the reason the protocol gives. */
  lemma PublishedRow(files: Files, acts: seq<Action>, t: Sys, explain: string -> string, before: Task, base: string,
                     now: Time, missed: bool)
    requires files.exitCode.Absent? && Steps(Start(files), acts, t, explain) && t.phase.Published?
    requires before.status == Running && now != 0
    ensures
      var look := Look(RealDirectory, base, ReadBounded(t.files.exitCode, MAX_SENTINEL, false),
                       ReadBounded(t.files.summary, MAX_SUMMARY, missed));
      var after := Settled(before, Judge(look, explain), now);
      && (after.status == Done <==> t.code == 0) && (after.status == Failed <==> t.code != 0)
      && after.completedAt == now
      && (t.code != 0 ==> after.judgmentReason == NonZeroReason(t.code))
      && (t.code == 0 && !missed ==> after.resultSummary == Shown(t.files.summary))
      && (t.code == 0 && !missed && !t.torn ==>
            after.resultSummary == if |t.text| <= MAX_SUMMARY then T.TrimSpace(t.text) else "")
  {
    StepsKeepInv(Start(files), acts, t, explain);
    LineParses(t.code);
    var look := Look(RealDirectory, base, ReadBounded(t.files.exitCode, MAX_SENTINEL, false),
                     ReadBounded(t.files.summary, MAX_SUMMARY, missed));
    assert look.sentinel == Content(Line(t.code));
    SettledReads(before, look, explain, now);
    SummaryReads(t);
  }

  lemma SummaryReads(t: Sys)
    requires Inv(t) && t.phase.Published?
    ensures Shown(t.files.summary) ==
      if ReadBounded(t.files.summary, MAX_SUMMARY, false).Content?
      then T.TrimSpace(ReadBounded(t.files.summary, MAX_SUMMARY, false).text) else ""
    ensures !t.torn ==> Shown(t.files.summary) == if |t.text| <= MAX_SUMMARY then T.TrimSpace(t.text) else ""
  {
  }

  /** No run settles the row before its own session has published. */
  ghost predicate NeverEarly(files: Files, explain: string -> string) {
    forall acts: seq<Action>, t: Sys | Steps(Start(files), acts, t, explain) && !t.outcome.Open? ::
      t.phase.Published?
  }

  /** The dispatcher does not clear `.exit_code`: the watcher waits for the session's own
      publication exactly when the directory holds no sentinel to begin with. */
  lemma NeverEarlyIff(files: Files, explain: string -> string)
    ensures NeverEarly(files, explain) <==> files.exitCode.Absent?
  {
    var s := Start(files);
    if files.exitCode.Absent? {
      forall acts: seq<Action>, t: Sys | Steps(s, acts, t, explain) && !t.outcome.Open?
        ensures t.phase.Published?
      {
        SettlesWhatWasPublished(files, acts, t, explain);
      }
    } else {
      var acts, t := OneLook(s, explain);
    }
  }
}
