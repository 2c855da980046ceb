/** When a run is admitted, why it is refused, and exactly what its admission or refusal writes. */
module Admissions {
  import opened Wrappers
  import opened Engine
  import opened Verdicts
  import opened Writes
  import opened Endings
  import H = History
  import T = Transcripts

  // ---------------------------------------------------------------- the request

  ghost predicate ImportedText(m: H.Message) {
    || (exists content :: m == H.User(content, None) && PlainText(content, 0, 16000))
    || (exists text :: m == H.Assistant(Some(text), None, None, None, None, None) && PlainText(text, 0, 16000))
  }

  /** A chat from before the runtime: at most 100 plain texts, within 131,072 bytes. */
  ghost predicate ImportWellFormed(h: seq<H.Message>) {
    |h| <= 100 && (forall i | 0 <= i < |h| :: ImportedText(h[i])) && |T.Utf8(T.HistoryText(h))| <= 131072
  }

  lemma ImportExactly(h: seq<H.Message>)
    ensures H.ValidImport(h) <==> ImportWellFormed(h)
  {
    forall m ensures H.ImportMessage(m) <==> ImportedText(m) {
      match m {
        case User(content, _) => assert H.ImportMessage(m) ==> m == H.User(content, None);
        case Assistant(text, _, _, _, _, _) =>
          if H.ImportMessage(m) { assert m == H.Assistant(Some(text.value), None, None, None, None, None); }
        case _ =>
      }
    }
    if forall i | 0 <= i < |h| :: ImportedText(h[i]) {
      forall i | 0 <= i < |h| ensures T.AllPrintable(h[i]) { ImportPrintable(h[i]); }
      T.HistorySize(h);
    }
    hide H.ImportMessage, ImportedText, H.CanonicalBytes, T.Utf8, T.HistoryText, T.AllPrintable;
  }

  lemma ImportPrintable(m: H.Message)
    requires ImportedText(m)
    ensures T.AllPrintable(m)
  {}

  ghost predicate RequestWellFormed(v: RunInput) {
    && PlainText(v.message, 1, 16000) && RefsWellFormed(v.grantRefs) && BudgetsInRange(v.budgets)
    && |v.interfaceIds| <= 20
    && (forall i, j | 0 <= i < |v.interfaceIds| && 0 <= j < |v.interfaceIds|
        && v.interfaceIds[i] == v.interfaceIds[j] :: i == j)
    && ImportWellFormed(v.importHistory)
  }

  lemma RequestExactly(v: RunInput)
    ensures ValidRunInput(v) <==> RequestWellFormed(v)
  {
    RefsExactly(v.grantRefs);
    ImportExactly(v.importHistory);
    hide ValidRefs, RefsWellFormed, H.ValidImport, ImportWellFormed;
    var ids := v.interfaceIds;
    if ValidRunInput(v) {
      forall i, j | 0 <= i < |ids| && 0 <= j < |ids| && ids[i] == ids[j] ensures !(i < j) && !(j < i) {}
    }
  }

  // ---------------------------------------------------------------- the workspace and the queue

  /** The history an operator's run starts from: what is committed, or what is imported the first time. */
  function StartHistory(db: Db, v: RunInput): seq<H.Message> {
    if v.workspaceId in db.workspaces && db.workspaces[v.workspaceId].admitted
    then db.workspaces[v.workspaceId].history else v.importHistory
  }

  /** The workspace can take the run: it is not deleted, and it is not given a second history. */
  ghost predicate WorkspaceTakes(db: Db, v: RunInput) {
    v.workspaceId in db.workspaces ==>
      && !db.workspaces[v.workspaceId].deleted
      && (db.workspaces[v.workspaceId].admitted ==> v.importHistory == [])
  }

  /** The record an admission leaves: an operator's run initialises it, a scheduled one does not. */
  function RecordedFor(db: Db, v: RunInput, operator: bool): Db {
    if operator then db.(workspaces := db.workspaces[v.workspaceId := Workspace(StartHistory(db, v), true, false)])
    else Recorded(db, v.workspaceId)
  }

  lemma TouchExactly(db: Db, v: RunInput, operator: bool)
    ensures var r := TouchWorkspace(db, v.workspaceId, v.importHistory, operator);
            (r.Ok? <==> WorkspaceTakes(db, v)) && (r.Ok? ==> r.value == RecordedFor(db, v, operator))
  {
    if v.workspaceId in db.workspaces { TouchesOld(db, v, operator); } else { TouchesNew(db, v, operator); }
  }

  lemma TouchesNew(db: Db, v: RunInput, operator: bool)
    requires v.workspaceId !in db.workspaces
    ensures TouchWorkspace(db, v.workspaceId, v.importHistory, operator) == Ok(RecordedFor(db, v, operator))
  {}

  lemma TouchesOld(db: Db, v: RunInput, operator: bool)
    requires v.workspaceId in db.workspaces
    ensures var r := TouchWorkspace(db, v.workspaceId, v.importHistory, operator);
            (r.Ok? <==> WorkspaceTakes(db, v)) && (r.Ok? ==> r.value == RecordedFor(db, v, operator))
  {
    var wid := v.workspaceId;
    var record := db.workspaces[wid];
    if WorkspaceTakes(db, v) {
      var kept := if operator && !record.admitted then record.(history := v.importHistory, admitted := true)
          else record;
      assert TouchWorkspace(db, wid, v.importHistory, operator) == Ok(db.(workspaces := db.workspaces[wid := kept]));
      if operator {
        assert kept == Workspace(StartHistory(db, v), true, false);
      } else {
        assert db.workspaces[wid := record] == db.workspaces;
      }
    }
  }

  /** The runs that are not over, whatever their state. */
  ghost function Unfinished(db: Db): set<Id> { set r | r in db.runs && !Over(db.runs[r].state) }

  /** No unfinished run is in the workspace or holds one of the connections. */
  ghost predicate NoClash(db: Db, v: RunInput) {
    forall r | r in Unfinished(db) ::
      && db.runs[r].input.workspaceId != v.workspaceId
      && forall i | 0 <= i < |v.grantRefs| && v.grantRefs[i].id in db.grants ::
           db.grants[v.grantRefs[i].id].connectionId !in db.runs[r].connections
  }

  ghost predicate MayBePlaced(db: Db, env: Env, v: RunInput) {
    && GrantsStand(db, env, v.workspaceId, v.modelId, v.grantRefs) && InterfacesStand(db, v.interfaceIds)
    && |Unfinished(db)| < 8 && NoClash(db, v)
  }

  lemma PlaceExactly(db: Db, env: Env, v: RunInput)
    ensures Placeable(db, env, v).Pass? <==> MayBePlaced(db, env, v)
  {
    GrantsExactly(db, env, v.workspaceId, v.modelId, v.grantRefs);
    InterfacesExactly(db, v.interfaceIds);
    assert ActiveRuns(db) == Unfinished(db);
    ClashExactly(db, v);
    hide GrantsStand, InterfacesStand, CheckGrants, CheckInterfaces, NoClash, Clashes, ActiveRuns, Unfinished,
        ConnectionsOf;
  }

  lemma ClashExactly(db: Db, v: RunInput)
    ensures (forall r | r in ActiveRuns(db) :: !Clashes(db.runs[r], v.workspaceId, ConnectionsOf(db, v.grantRefs))) <==>
            NoClash(db, v)
  {
    assert ActiveRuns(db) == Unfinished(db);
    var held := ConnectionsOf(db, v.grantRefs);
    assert forall i | 0 <= i < |v.grantRefs| && v.grantRefs[i].id in db.grants ::
           db.grants[v.grantRefs[i].id].connectionId in held;
    hide ActiveRuns, Unfinished;
  }

  // ---------------------------------------------------------------- admission

  ghost predicate MayBeAdmitted(db: Db, env: Env, v: RunInput, rid: Id, schedule: Option<(Id, Schedule)>) {
    && RequestWellFormed(v) && v.modelId in env.models && env.ready && rid !in db.cancellations && rid !in db.runs
    && WorkspaceTakes(db, v) && MayBePlaced(db, env, v)
    && (schedule.None? ==> H.RuntimeHistory(env.cfg.codec, StartHistory(db, v)).Some?)
    && (schedule.Some? ==> InterfaceStands(db, schedule.value.1.interfaceId))
  }

  /** A queued run with its own first event, last in the order of rows. It captures the workspace's
      history in stored form, or the schedule's version and target; it has the time it was given. */
  function AdmittedAs(db: Db, env: Env, v: RunInput, rid: Id, schedule: Option<(Id, Schedule)>): Db
    requires schedule.None? ==> H.RuntimeHistory(env.cfg.codec, StartHistory(db, v)).Some?
    requires schedule.Some? ==> schedule.value.1.interfaceId in db.interfaces
  {
    var link := if schedule.None? then None
                else Some(ScheduleLink(schedule.value.0, schedule.value.1.version,
                                       db.interfaces[schedule.value.1.interfaceId].revision));
    var history := if schedule.None? then H.RuntimeHistory(env.cfg.codec, StartHistory(db, v)).value else [];
    var connections := set i | 0 <= i < |v.grantRefs| && v.grantRefs[i].id in db.grants ::
        db.grants[v.grantRefs[i].id].connectionId;
    var row := Run(v, link, Queued, None, env.now, env.now + 1000 * v.budgets.maxDurationSeconds, 1, history,
                   connections, 0, 0, None);
    RecordedFor(db, v, schedule.None?).(
      runs := db.runs[rid := row], runRows := db.runRows + [rid],
      events := db.events[rid := [Event(1, StateChanged(Queued, None))]])
  }

  lemma RecordedForElsewhere(db: Db, v: RunInput, operator: bool)
    ensures RecordedFor(db, v, operator) == db.(workspaces := RecordedFor(db, v, operator).workspaces)
  {}

  lemma PlacedKept(db: Db, ws: map<Id, Workspace>, env: Env, v: RunInput)
    ensures MayBePlaced(db.(workspaces := ws), env, v) <==> MayBePlaced(db, env, v)
  {
    var b := db.(workspaces := ws);
    assert Unfinished(b) == Unfinished(db);
    assert NoClash(b, v) <==> NoClash(db, v);
    assert forall ref :: GrantStands(b, env, v.workspaceId, v.modelId, ref) <==>
           GrantStands(db, env, v.workspaceId, v.modelId, ref);
    hide Unfinished, GrantStands, NoClash;
  }

  lemma CreateRunExactly(db: Db, env: Env, v: RunInput, rid: Id, schedule: Option<(Id, Schedule)>)
    ensures var (b, outcome) := CreateRun(db, env, v, rid, schedule);
            && (outcome.Pass? <==> MayBeAdmitted(db, env, v, rid, schedule))
            && (outcome.Pass? ==> b == AdmittedAs(db, env, v, rid, schedule))
  {
    hide ValidRunInput, RequestWellFormed, TouchWorkspace, WorkspaceTakes, Placeable, MayBePlaced, H.RuntimeHistory,
        RecordedFor;
    RequestExactly(v);
    TouchExactly(db, v, schedule.None?);
    var placed := RecordedFor(db, v, schedule.None?);
    RecordedForElsewhere(db, v, schedule.None?);
    PlacedKept(db, placed.workspaces, env, v);
    PlaceExactly(placed, env, v);
    HistoryRecorded(db, v);
  }

  lemma HistoryRecorded(db: Db, v: RunInput)
    ensures var b := RecordedFor(db, v, true);
            v.workspaceId in b.workspaces && b.workspaces[v.workspaceId].history == StartHistory(db, v)
  {}

  // ---------------------------------------------------------------- refusals

  /** What is settled before the workspace is looked at. */
  ghost predicate MayAsk(db: Db, env: Env, v: RunInput, rid: Id) {
    RequestWellFormed(v) && v.modelId in env.models && env.ready && rid !in db.cancellations && rid !in db.runs
  }

  /** The first thing that stands against an admission, in the order in which the source looks; the
      last of them, the schedule's target, is none of the run's own interfaces. */
  ghost function WhyRefused(db: Db, env: Env, v: RunInput, rid: Id, schedule: Option<(Id, Schedule)>): Code
    requires !MayBeAdmitted(db, env, v, rid, schedule)
  {
    if !RequestWellFormed(v) then InvalidRequest
    else if v.modelId !in env.models then ModelUnavailable
    else if !env.ready then RuntimeUnavailable
    else if rid in db.cancellations then CancelledBeforeAdmission
    else if rid in db.runs then RunExists
    else if v.workspaceId in db.workspaces && db.workspaces[v.workspaceId].deleted then Tombstoned
    else if !WorkspaceTakes(db, v) then HistoryAlreadyInitialized
    else if !GrantsStand(db, env, v.workspaceId, v.modelId, v.grantRefs) then
      var ref := v.grantRefs[FirstFallen(db, env, v.workspaceId, v.modelId, v.grantRefs)];
      if ref.id in db.grants then GrantDenied else NotFound
    else if !InterfacesStand(db, v.interfaceIds) then
      if v.interfaceIds[FirstGone(db, v.interfaceIds)] in db.interfaces then Tombstoned else NotFound
    else if |Unfinished(db)| >= 8 then CapacityExceeded
    else if !NoClash(db, v) then RunActive
    else if schedule.None? then InvalidRequest
    else if schedule.value.1.interfaceId in db.interfaces then Tombstoned
    else NotFound
  }

  lemma {:induction false} InterfaceCodesKept(db: Db, ws: map<Id, Workspace>, iids: seq<Id>)
    ensures CheckInterfaces(db.(workspaces := ws), iids) == CheckInterfaces(db, iids)
    decreases |iids|
  {
    if iids != [] { InterfaceCodesKept(db, ws, iids[1..]); }
  }

  lemma PlaceCode(db: Db, ws: map<Id, Workspace>, env: Env, v: RunInput)
    requires !MayBePlaced(db, env, v)
    ensures Placeable(db.(workspaces := ws), env, v) == Fail(
      if !GrantsStand(db, env, v.workspaceId, v.modelId, v.grantRefs) then
        var ref := v.grantRefs[FirstFallen(db, env, v.workspaceId, v.modelId, v.grantRefs)];
        if ref.id in db.grants then GrantDenied else NotFound
      else if !InterfacesStand(db, v.interfaceIds) then
        if v.interfaceIds[FirstGone(db, v.interfaceIds)] in db.interfaces then Tombstoned else NotFound
      else if |Unfinished(db)| >= 8 then CapacityExceeded
      else RunActive)
  {
    GrantCodesKept(db, ws, env, v.workspaceId, v.modelId, v.grantRefs);
    InterfaceCodesKept(db, ws, v.interfaceIds);
    GrantsExactly(db, env, v.workspaceId, v.modelId, v.grantRefs);
    InterfacesExactly(db, v.interfaceIds);
    if !GrantsStand(db, env, v.workspaceId, v.modelId, v.grantRefs) {
      GrantsCode(db, env, v.workspaceId, v.modelId, v.grantRefs);
    } else if !InterfacesStand(db, v.interfaceIds) {
      InterfacesCode(db, v.interfaceIds);
    } else {
      var b := db.(workspaces := ws);
      assert ActiveRuns(b) == Unfinished(db);
      ClashExactly(b, v);
      assert NoClash(b, v) <==> NoClash(db, v) by { assert Unfinished(b) == Unfinished(db); }
    }
    hide GrantsStand, InterfacesStand, CheckGrants, CheckInterfaces, NoClash, Clashes, ActiveRuns, Unfinished,
        ConnectionsOf;
    hide FirstFallen, FirstGone;
  }

  /** A refusal answers the first thing that stands against the run. It leaves the tables as they are
      when that is found before the workspace record is touched, and else only that record. */
  lemma RefusalExactly(db: Db, env: Env, v: RunInput, rid: Id, schedule: Option<(Id, Schedule)>)
    requires !MayBeAdmitted(db, env, v, rid, schedule)
    ensures var touched := MayAsk(db, env, v, rid) && WorkspaceTakes(db, v);
            CreateRun(db, env, v, rid, schedule) ==
              (if touched then RecordedFor(db, v, schedule.None?) else db, Fail(WhyRefused(db, env, v, rid, schedule)))
  {
    hide ValidRunInput, RequestWellFormed, TouchWorkspace, Placeable, MayBePlaced, H.RuntimeHistory, RecordedFor,
        GrantsStand;
    hide InterfacesStand, FirstFallen, FirstGone, NoClash;
    RequestExactly(v);
    TouchExactly(db, v, schedule.None?);
    var placed := RecordedFor(db, v, schedule.None?);
    RecordedForElsewhere(db, v, schedule.None?);
    if MayAsk(db, env, v, rid) && !WorkspaceTakes(db, v) { TouchCode(db, v, schedule.None?); }
    if !MayBePlaced(db, env, v) {
      PlaceCode(db, placed.workspaces, env, v);
    } else {
      PlacedKept(db, placed.workspaces, env, v);
      PlaceExactly(placed, env, v);
      HistoryRecorded(db, v);
    }
    MayBePlacedIs(db, env, v);
  }

  lemma MayBePlacedIs(db: Db, env: Env, v: RunInput)
    ensures MayBePlaced(db, env, v) <==>
            && GrantsStand(db, env, v.workspaceId, v.modelId, v.grantRefs) && InterfacesStand(db, v.interfaceIds)
            && |Unfinished(db)| < 8 && NoClash(db, v)
  {
    hide GrantsStand, InterfacesStand, NoClash, Unfinished;
  }

  lemma TouchCode(db: Db, v: RunInput, operator: bool)
    requires !WorkspaceTakes(db, v)
    ensures v.workspaceId in db.workspaces
    ensures TouchWorkspace(db, v.workspaceId, v.importHistory, operator) ==
            Err(if db.workspaces[v.workspaceId].deleted then Tombstoned else HistoryAlreadyInitialized)
  {}
}
