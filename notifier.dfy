/**
 * The delivery side of the pipeline (python/slack_integracao.py): each tick of the
 * drain loop claims one pending outbox row, resolves the Slack channel of its machine,
 * posts the alert and records the outcome in Alerta.enviado.  A row is marked 1 only
 * after a successful post; every other outcome writes 0, which leaves it pending.
 */
module Notifier {
  import opened Wrappers
  import opened Tables
  import opened SlackText

  /** The row the claim query returns, keeping the columns the tick uses. */
  datatype Claimed = Claimed(
    alertId: nat,
    parameter: nat,
    message: string,
    capture: nat,
    machine: nat,
    component: string,
    capacity: Option<real>,
    formatting: string,
    value: real,
    level: string)

  /** The tables the claim query joins an alert with; `machines` are the rows of Maquina. */
  datatype JoinContext = JoinContext(
    parameters: seq<Parameter>,
    components: map<nat, Component>,
    captures: seq<Capture>,
    machines: set<nat>)

  function Context(db: Database): JoinContext
    reads db
  {
    JoinContext(db.parameters, db.components, db.captures, db.machineStatus.Keys)
  }

  /** `JOIN Parametro p ON p.idParametro = a.fkParametro`: the first row with that key. */
  function FindParameter(ps: seq<Parameter>, id: nat): (r: Option<Parameter>)
    ensures r.Some? ==> r.value in ps && r.value.id == id
    ensures r.None? <==> forall k :: 0 <= k < |ps| ==> ps[k].id != id
  {
    if ps == [] then None
    else if ps[0].id == id then Some(ps[0])
    else FindParameter(ps[1..], id)
  }

  /**
   * `JOIN Captura cap ON cap.idCaptura = a.fkCaptura`: the first row with that key.
   * The same key lookup as FindParameter, on the Captura table.
   */
  function FindCapture(cs: seq<Capture>, id: nat): (r: Option<Capture>)
    ensures r.Some? ==> r.value in cs && r.value.id == id
    ensures r.None? <==> forall k :: 0 <= k < |cs| ==> cs[k].id != id
  {
    if cs == [] then None
    else if cs[0].id == id then Some(cs[0])
    else FindCapture(cs[1..], id)
  }

  /**
   * The joined row of alert `a`, or None when one of the inner joins (parameter,
   * component, capture, machine) finds no partner.
   */
  function Join(ctx: JoinContext, a: Alert): (r: Option<Claimed>)
    ensures r.Some? ==> r.value.alertId == a.id
  {
    match FindParameter(ctx.parameters, a.parameter)
    case None => None
    case Some(p) =>
      if p.component !in ctx.components then None
      else
        var comp := ctx.components[p.component];
        match FindCapture(ctx.captures, a.capture)
        case None => None
        case Some(c) =>
          if comp.machine !in ctx.machines then None
          else Some(Claimed(a.id, a.parameter, a.message, a.capture, comp.machine, comp.name,
                            comp.capacity, comp.formatting, c.value, p.level))
  }

  /** An alert joins only when Parametro has its `fkParametro` and Captura its `fkCaptura`. */
  lemma JoinNeedsPartners(ctx: JoinContext, a: Alert)
    ensures Join(ctx, a).Some? ==> a.parameter in ParameterIds(ctx.parameters) && a.capture in CaptureIds(ctx.captures)
    ensures Join(ctx, a).Some? ==>
      var v := Join(ctx, a).value;
      && v.parameter == a.parameter && v.capture == a.capture && v.message == a.message
      && v.machine in ctx.machines
  {
    if Join(ctx, a).Some? {
      assert FindParameter(ctx.parameters, a.parameter).value in ctx.parameters;
      assert FindCapture(ctx.captures, a.capture).value in ctx.captures;
    }
  }

  /**
   * The inner joins exactly: when Parametro has one row `p` with the alert's key and
   * Captura one row `c`, the alert joins exactly when `p`'s component and that
   * component's machine have rows, and the joined columns come from `p`, `c` and the
   * component.
   */
  lemma JoinExactly(ctx: JoinContext, a: Alert, p: Parameter, c: Capture)
    requires DistinctParameterIds(ctx.parameters)
    requires p in ctx.parameters && p.id == a.parameter
    requires c in ctx.captures && c.id == a.capture
    requires forall d :: d in ctx.captures && d.id == a.capture ==> d == c
    ensures Join(ctx, a).Some? <==> p.component in ctx.components && ctx.components[p.component].machine in ctx.machines
    ensures Join(ctx, a).Some? ==>
      var v := Join(ctx, a).value;
      var comp := ctx.components[p.component];
      && v.level == p.level && v.value == c.value
      && v.machine == comp.machine && v.component == comp.name
      && v.capacity == comp.capacity && v.formatting == comp.formatting
  {
    var found := FindParameter(ctx.parameters, a.parameter).value;
    var i :| 0 <= i < |ctx.parameters| && ctx.parameters[i] == found;
    var j :| 0 <= j < |ctx.parameters| && ctx.parameters[j] == p;
    assert i == j;
    assert FindCapture(ctx.captures, a.capture).value in ctx.captures;
  }

  /** Alert `a` satisfies the WHERE clause and survives the joins. */
  predicate Claimable(ctx: JoinContext, a: Alert) {
    IsPending(a) && Join(ctx, a).Some?
  }

  /**
   * `pegar_um_alerta_nao_enviado` (with `LIMIT 1`, read as the first row in table order):
   * None exactly when no alert is claimable; otherwise the joined row of the first
   * claimable alert, which is pending.
   */
  function ClaimOnePending(ctx: JoinContext, alerts: seq<Alert>): (r: Option<Claimed>)
    ensures r.None? <==> forall i :: 0 <= i < |alerts| ==> !Claimable(ctx, alerts[i])
    ensures r.Some? ==> exists i :: 0 <= i < |alerts| && Claimable(ctx, alerts[i]) && Join(ctx, alerts[i]) == r
                                 && r.value.alertId == alerts[i].id
                                 && forall j :: 0 <= j < i ==> !Claimable(ctx, alerts[j])
  {
    if alerts == [] then None
    else if Claimable(ctx, alerts[0]) then Join(ctx, alerts[0])
    else
      var r := ClaimOnePending(ctx, alerts[1..]);
      assert r.Some? ==> exists i :: 0 < i < |alerts| && Claimable(ctx, alerts[i]) && Join(ctx, alerts[i]) == r
                                   && r.value.alertId == alerts[i].id
                                   && forall j :: 0 <= j < i ==> !Claimable(ctx, alerts[j]) by {
        if r.Some? {
          var i :| 0 <= i < |alerts[1..]| && Claimable(ctx, alerts[1..][i]) && Join(ctx, alerts[1..][i]) == r
                 && r.value.alertId == alerts[1..][i].id
                 && forall j :: 0 <= j < i ==> !Claimable(ctx, alerts[1..][j]);
          assert forall j :: 0 < j < i + 1 ==> alerts[j] == alerts[1..][j - 1];
        }
      }
      r
  }

  /**
   * A pending alert whose parameter, capture, component and machine rows all exist
   * is claimable, so a tick does not report "no pending alert" while it waits.
   */
  lemma PendingAlertIsClaimed(ctx: JoinContext, alerts: seq<Alert>, k: int, p: Parameter, c: Capture)
    requires DistinctParameterIds(ctx.parameters)
    requires 0 <= k < |alerts| && IsPending(alerts[k])
    requires p in ctx.parameters && p.id == alerts[k].parameter
    requires c in ctx.captures && c.id == alerts[k].capture
    requires forall d :: d in ctx.captures && d.id == alerts[k].capture ==> d == c
    requires p.component in ctx.components && ctx.components[p.component].machine in ctx.machines
    ensures ClaimOnePending(ctx, alerts).Some?
  {
    JoinExactly(ctx, alerts[k], p, c);
    assert Claimable(ctx, alerts[k]);
  }

  /** Alerta's primary key: no two rows share an id. */
  predicate UniqueIds(alerts: seq<Alert>) {
    forall i, j :: 0 <= i < |alerts| && 0 <= j < |alerts| && i != j ==> alerts[i].id != alerts[j].id
  }

  /** `UPDATE Alerta SET enviado = flag WHERE idAlerta = id`. */
  function SetFlag(alerts: seq<Alert>, id: nat, flag: int): (r: seq<Alert>)
    ensures |r| == |alerts|
    ensures forall k :: 0 <= k < |r| ==> r[k].(sent := alerts[k].sent) == alerts[k]
    ensures forall k :: 0 <= k < |r| ==> r[k].sent == (if alerts[k].id == id then Flag(flag) else alerts[k].sent)
  {
    seq(|alerts|, k requires 0 <= k < |alerts| => if alerts[k].id == id then alerts[k].(sent := Flag(flag)) else alerts[k])
  }

  /**
   * Every row carrying the claimed id is pending, so an alert with `enviado = 1` is
   * never the one claimed.
   */
  lemma ClaimedRowIsPending(ctx: JoinContext, alerts: seq<Alert>)
    requires UniqueIds(alerts)
    requires ClaimOnePending(ctx, alerts).Some?
    ensures forall i :: 0 <= i < |alerts| && alerts[i].id == ClaimOnePending(ctx, alerts).value.alertId ==>
      IsPending(alerts[i])
  {
    var r := ClaimOnePending(ctx, alerts);
    var c :| 0 <= c < |alerts| && Claimable(ctx, alerts[c]) && r.value.alertId == alerts[c].id;
    forall i | 0 <= i < |alerts| && alerts[i].id == r.value.alertId ensures IsPending(alerts[i]) {
      assert i == c;
    }
  }

  /**
   * Whatever flag a tick writes on the alert it claimed, no alert already marked sent
   * goes back to pending, and every other column and row is left as it was.
   */
  lemma MarkingClaimNeverRegresses(ctx: JoinContext, alerts: seq<Alert>, flag: int)
    requires UniqueIds(alerts)
    requires ClaimOnePending(ctx, alerts).Some?
    ensures var after := SetFlag(alerts, ClaimOnePending(ctx, alerts).value.alertId, flag);
      && |after| == |alerts|
      && (forall i :: 0 <= i < |alerts| && alerts[i].sent == Flag(1) ==> after[i] == alerts[i])
      && (forall i :: 0 <= i < |alerts| ==> after[i].(sent := alerts[i].sent) == alerts[i])
  {
    ClaimedRowIsPending(ctx, alerts);
  }

  /** Writing a flag keeps the store's keys and references. */
  lemma SetFlagKeepsConsistent(parameters: seq<Parameter>, captures: seq<Capture>, nextCapture: nat,
                               alerts: seq<Alert>, nextAlert: nat, id: nat, flag: int)
    requires Consistent(parameters, captures, nextCapture, alerts, nextAlert)
    ensures Consistent(parameters, captures, nextCapture, SetFlag(alerts, id, flag), nextAlert)
  {
    var after := SetFlag(alerts, id, flag);
    forall a | a in after ensures a.capture in CaptureIds(captures) && a.parameter in ParameterIds(parameters) {
      var k :| 0 <= k < |after| && after[k] == a;
      assert alerts[k] in alerts;
    }
  }

  /**
   * `marcar_alerta_enviado`: sets `enviado` of the row with id `id` to `flag`; a store
   * error is swallowed and changes nothing.
   */
  method MarkAlertSent(db: Database, id: nat, flag: int, fails: bool)
    requires db.Valid()
    modifies db
    ensures db.Valid()
    ensures db.alerts == if fails then old(db.alerts) else SetFlag(old(db.alerts), id, flag)
    ensures db.components == old(db.components) && db.parameters == old(db.parameters)
    ensures db.captures == old(db.captures) && db.machineStatus == old(db.machineStatus)
    ensures db.nextCaptureId == old(db.nextCaptureId) && db.nextAlertId == old(db.nextAlertId)
  {
    if !fails {
      SetFlagKeepsConsistent(db.parameters, db.captures, db.nextCaptureId, db.alerts, db.nextAlertId, id, flag);
      db.alerts := SetFlag(db.alerts, id, flag);
    }
  }

  /** What the tick hands to the Slack client: the parts of its text the model keeps. */
  datatype SlackReport = SlackReport(
    machine: nat,
    component: string,
    level: string,
    symbol: string,
    value: string,
    capacity: string)

  /** The result of `chat_postMessage`: success, a SlackApiError, or any other exception. */
  datatype SendOutcome = Posted | ApiError(error: string) | UnexpectedError

  /** Where a mysql `Error` strikes during a tick: in the claim query, or in the flag update. */
  datatype DrainFaults = DrainFaults(claimFails: bool, markFails: bool)

  datatype TickResult =
    | NoPendingAlert
    | NotConfigured(alertId: nat)
    | ProcessingFailed(alertId: nat)
    | SendFailed(alertId: nat, outcome: SendOutcome)
    | Delivered(alertId: nat)

  /** `str(alerta['capacidade'])`: "None" for a NULL capacity. */
  function CapacityText(capacity: Option<real>, fm: NumberFormats): string {
    match capacity
    case None => "None"
    case Some(c) => fm.shown(c)
  }

  /**
   * The report built inside the `try`, or None when `float` raises while reading the
   * value or the capacity.
   */
  function BuildReport(v: Claimed, fm: NumberFormats): (r: Option<SlackReport>)
    ensures r.None? <==>
      ExtractNumber(fm.shown(v.value), fm.parse).None? || ExtractNumber(CapacityText(v.capacity, fm), fm.parse).None?
    ensures r.Some? ==>
      && r.value.machine == v.machine && r.value.component == v.component && r.value.level == v.level
      && r.value.symbol == LevelSymbol(v.level)
      && r.value.value == WithUnit(fm.fixed1(ExtractNumber(fm.shown(v.value), fm.parse).value), v.formatting)
      && r.value.capacity == WithUnit(fm.fixed1(ExtractNumber(CapacityText(v.capacity, fm), fm.parse).value), v.formatting)
  {
    match ExtractNumber(fm.shown(v.value), fm.parse)
    case None => None
    case Some(value) =>
      match ExtractNumber(CapacityText(v.capacity, fm), fm.parse)
      case None => None
      case Some(capacity) =>
        Some(SlackReport(v.machine, v.component, v.level, LevelSymbol(v.level),
                         WithUnit(fm.fixed1(value), v.formatting), WithUnit(fm.fixed1(capacity), v.formatting)))
  }

  /** `idSlack and slack_client`: a non-empty channel id and a configured client. */
  predicate Deliverable(target: Option<string>, clientConfigured: bool) {
    target.Some? && target.value != "" && clientConfigured
  }

  /**
   * `enviar_alerta_slack`, one tick of the drain loop.  `resolve` stands for the channel
   * lookup of a machine and `send` for the Slack client.  The claimed alert is marked 1
   * only after a successful post; an unresolved target, a missing client, a value that
   * cannot be read or a failed post all write 0.  Nothing else changes, and no sent
   * alert becomes pending again.
   */
  method SendOneAlert(db: Database, resolve: nat -> Option<string>, clientConfigured: bool,
                      fm: NumberFormats, send: (string, SlackReport) -> SendOutcome, faults: DrainFaults)
    returns (result: TickResult)
    requires db.Valid()
    modifies db
    ensures db.Valid()
    ensures db.components == old(db.components) && db.parameters == old(db.parameters)
    ensures db.captures == old(db.captures) && db.machineStatus == old(db.machineStatus)
    ensures db.nextCaptureId == old(db.nextCaptureId) && db.nextAlertId == old(db.nextAlertId)
    ensures |db.alerts| == |old(db.alerts)|
    ensures forall i :: 0 <= i < |db.alerts| && old(db.alerts[i]).sent == Flag(1) ==> db.alerts[i] == old(db.alerts[i])
    ensures var claim := if faults.claimFails then None else ClaimOnePending(old(Context(db)), old(db.alerts));
      && (claim.None? <==> result.NoPendingAlert?)
      && (claim.None? ==> db.alerts == old(db.alerts))
      && (claim.Some? ==>
            var v := claim.value;
            var target := resolve(v.machine);
            var report := BuildReport(v, fm);
            && result.alertId == v.alertId
            && db.alerts == (if faults.markFails then old(db.alerts)
                             else SetFlag(old(db.alerts), v.alertId, if result.Delivered? then 1 else 0))
            && (result.NotConfigured? <==> !Deliverable(target, clientConfigured))
            && (result.ProcessingFailed? <==> Deliverable(target, clientConfigured) && report.None?)
            && (result.Delivered? <==>
                  Deliverable(target, clientConfigured) && report.Some? && send(target.value, report.value) == Posted)
            && (result.SendFailed? ==>
                  && Deliverable(target, clientConfigured) && report.Some?
                  && result.outcome == send(target.value, report.value) && result.outcome != Posted))
  {
    var claim := None;
    if !faults.claimFails {
      claim := ClaimOnePending(Context(db), db.alerts);
    }
    if claim.None? {
      return NoPendingAlert;
    }
    var alerta := claim.value;
    MarkingClaimNeverRegresses(Context(db), db.alerts, 0);
    MarkingClaimNeverRegresses(Context(db), db.alerts, 1);

    var idSlack := resolve(alerta.machine);
    if !Deliverable(idSlack, clientConfigured) {
      MarkAlertSent(db, alerta.alertId, 0, faults.markFails);
      return NotConfigured(alerta.alertId);
    }
    var report := BuildReport(alerta, fm);
    if report.None? {
      MarkAlertSent(db, alerta.alertId, 0, faults.markFails);
      return ProcessingFailed(alerta.alertId);
    }
    var outcome := send(idSlack.value, report.value);
    if outcome == Posted {
      MarkAlertSent(db, alerta.alertId, 1, faults.markFails);
      result := Delivered(alerta.alertId);
    } else {
      MarkAlertSent(db, alerta.alertId, 0, faults.markFails);
      result := SendFailed(alerta.alertId, outcome);
    }
  }
}
