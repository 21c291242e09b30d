/**
 * The MySQL tables the alert pipeline reads and writes, kept in memory.
 *
 * Captura, Alerta and Maquina.status are written by the pipeline; Componente and
 * Parametro are read only.  Row identifiers are handed out by AUTO_INCREMENT
 * counters, which `Database` keeps as `nextCaptureId` and `nextAlertId`.
 */
module Tables {
  import opened Wrappers

  /** The wall-clock time of a sampling cycle (`datetime.now()`), kept abstract. */
  type Timestamp = int

  /** A row of Componente: its name, owning machine, display unit and optional capacity. */
  datatype Component = Component(name: string, machine: nat, formatting: string, capacity: Option<real>)

  /** A row of Captura. */
  datatype Capture = Capture(id: nat, component: nat, value: real, takenAt: Timestamp)

  /** A row of Parametro: the band [minimum, maximum] of one level for one component. */
  datatype Parameter = Parameter(id: nat, component: nat, level: string, minimum: real, maximum: real)

  /** The nullable integer column Alerta.enviado. */
  datatype SentFlag = Null | Flag(bit: int)

  /** A row of Alerta. */
  datatype Alert = Alert(id: nat, parameter: nat, capture: nat, sent: SentFlag, message: string)

  /** The outbox condition `enviado = 0 OR enviado IS NULL`. */
  predicate IsPending(a: Alert) {
    a.sent == Null || a.sent == Flag(0)
  }

  /**
   * The floating-point text conversions the source relies on, left uninterpreted:
   * `rounded` is `str(round(v, 1))`, `fixed1` is `f"{v:.1f}"`, `shown` is `str(v)`,
   * and `parse` is `float(text)`, which gives None where Python raises ValueError.
   */
  datatype NumberFormats = NumberFormats(
    rounded: real -> string,
    fixed1: real -> string,
    shown: real -> string,
    parse: string -> Option<real>)

  function CaptureIds(cs: seq<Capture>): set<nat> {
    set c | c in cs :: c.id
  }

  function ParameterIds(ps: seq<Parameter>): set<nat> {
    set p | p in ps :: p.id
  }

  /** AUTO_INCREMENT numbering: ids grow in insertion order and stay below the counter. */
  predicate CapturesNumbered(cs: seq<Capture>, next: nat) {
    && (forall i, j :: 0 <= i < j < |cs| ==> cs[i].id < cs[j].id)
    && (forall i :: 0 <= i < |cs| ==> cs[i].id < next)
  }

  predicate AlertsNumbered(rows: seq<Alert>, next: nat) {
    && (forall i, j :: 0 <= i < j < |rows| ==> rows[i].id < rows[j].id)
    && (forall i :: 0 <= i < |rows| ==> rows[i].id < next)
  }

  /** idParametro is the primary key of Parametro. */
  predicate DistinctParameterIds(ps: seq<Parameter>) {
    forall i, j :: 0 <= i < j < |ps| ==> ps[i].id != ps[j].id
  }

  /** Keys are unique, and every alert points at a capture and a parameter that exist. */
  ghost predicate Consistent(parameters: seq<Parameter>, captures: seq<Capture>, nextCaptureId: nat,
                             alerts: seq<Alert>, nextAlertId: nat)
  {
    && CapturesNumbered(captures, nextCaptureId)
    && AlertsNumbered(alerts, nextAlertId)
    && DistinctParameterIds(parameters)
    && (forall a :: a in alerts ==> a.capture in CaptureIds(captures) && a.parameter in ParameterIds(parameters))
  }

  class Database {
    var components: map<nat, Component>
    var parameters: seq<Parameter>
    var captures: seq<Capture>
    var alerts: seq<Alert>
    /** Maquina.status, keyed by idMaquina; the keys are the rows of Maquina. */
    var machineStatus: map<nat, string>
    var nextCaptureId: nat
    var nextAlertId: nat

    ghost predicate Valid()
      reads this
    {
      Consistent(parameters, captures, nextCaptureId, alerts, nextAlertId)
    }

    /** A store provisioned with components, parameters and machines, and no captures or alerts yet. */
    constructor (components: map<nat, Component>, parameters: seq<Parameter>, machineStatus: map<nat, string>)
      requires DistinctParameterIds(parameters)
      ensures Valid()
      ensures this.components == components && this.parameters == parameters
      ensures this.machineStatus == machineStatus
      ensures captures == [] && alerts == []
      ensures nextCaptureId == 1 && nextAlertId == 1
    {
      this.components := components;
      this.parameters := parameters;
      this.machineStatus := machineStatus;
      captures := [];
      alerts := [];
      nextCaptureId := 1;
      nextAlertId := 1;
    }
  }
}
