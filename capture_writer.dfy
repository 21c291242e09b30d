/**
 * The sampling side of the pipeline (python/insertCaptura.py): one call of
 * `InsertCapturesAndAlerts` records a CPU, memory and disk capture for a machine,
 * classifies them against the Parametro bands, writes an outbox row for every band
 * that contains its value and overwrites the machine's status.  `InsertPing` records
 * the latency capture on its own.
 *
 * Alert firing is band CONTAINMENT, bounds included: a parameter fires when
 * `minimum <= value <= maximum`.  The bands are failure bands, not safe bands.
 */
module CaptureWriter {
  import opened Wrappers
  import opened Tables

  /** An entry of the monitored-machine list: its idMaquina and the idComponente under each name. */
  datatype Machine = Machine(id: nat, components: map<string, nat>)

  /** The keys of `registros`, in the dictionary's insertion order. */
  const Measured: seq<string> := ["CPU", "Memoria", "Disco"]
  const PingName: string := "Ping"
  /** The status written when nothing fired. */
  const Stable: string := "Est\U{E1}vel"

  /** An element of `alertas`: (fkParametro, fkCaptura, comp_nome, nivel). */
  datatype PendingAlert = PendingAlert(parameter: nat, capture: nat, componentName: string, level: string)

  /**
   * An element of the returned `mensagens_slack`: the fields its text is made of
   * (the level, the machine, the component, the value and the time of the cycle).
   */
  datatype Notice = Notice(level: string, machine: nat, componentName: string, value: real, at: Timestamp)

  /**
   * Where a mysql `Error` interrupts the call, if anywhere: before the captures are
   * committed, or after that commit and before the alerts and status are committed.
   */
  datatype StoreFault = NoFault | FailsBeforeCaptureCommit | FailsAfterCaptureCommit

  predicate CoversMeasured<V>(d: map<string, V>) {
    "CPU" in d && "Memoria" in d && "Disco" in d
  }

  /**
   * What the source needs of a machine entry: the three measured names are present
   * (otherwise it raises KeyError) and no two names share a component id (so that
   * `id_para_nome` inverts `componentes`).
   */
  predicate Monitors(m: Machine) {
    && CoversMeasured(m.components)
    && forall a, b :: a in m.components && b in m.components && a != b ==> m.components[a] != m.components[b]
  }

  /** Componente has a row for each measured component, so `map_format` has every key asked of it. */
  predicate HasFormatting(m: Machine, components: map<nat, Component>)
    requires CoversMeasured(m.components)
  {
    m.components["CPU"] in components && m.components["Memoria"] in components && m.components["Disco"] in components
  }

  /** `registros`: the sampled value under each measured name. */
  function Registros(cpu: real, memory: real, disk: real): map<string, real> {
    map["CPU" := cpu, "Memoria" := memory, "Disco" := disk]
  }

  /** The `ids_captura` a call fills in when the capture counter stands at `first`. */
  function CaptureIdsFrom(first: nat): map<string, nat> {
    map["CPU" := first, "Memoria" := first + 1, "Disco" := first + 2]
  }

  /** The capture rows one call inserts, in the order of `Measured`, all stamped `now`. */
  function NewCaptures(m: Machine, reg: map<string, real>, now: Timestamp, first: nat): (r: seq<Capture>)
    requires CoversMeasured(m.components) && CoversMeasured(reg)
    ensures |r| == |Measured|
    ensures forall k :: 0 <= k < |r| ==>
      && r[k].id == first + k && r[k].takenAt == now
      && r[k].component == m.components[Measured[k]] && r[k].value == reg[Measured[k]]
  {
    [ Capture(first, m.components["CPU"], reg["CPU"], now),
      Capture(first + 1, m.components["Memoria"], reg["Memoria"], now),
      Capture(first + 2, m.components["Disco"], reg["Disco"], now) ]
  }

  /** `id_para_nome[fk]` restricted to the measured components (the query's IN list). */
  function NameOf(m: Machine, fk: nat): Option<string>
    requires CoversMeasured(m.components)
  {
    if m.components["CPU"] == fk then Some("CPU")
    else if m.components["Memoria"] == fk then Some("Memoria")
    else if m.components["Disco"] == fk then Some("Disco")
    else None
  }

  /** Parameter `p` is one the query returns and its band contains the current value of its component. */
  predicate Triggers(m: Machine, p: Parameter, reg: map<string, real>)
    requires CoversMeasured(m.components) && CoversMeasured(reg)
    ensures Triggers(m, p, reg) ==> p.component in m.components.Values && p.minimum <= p.maximum
  {
    match NameOf(m, p.component)
    case None => false
    case Some(name) => p.minimum <= reg[name] <= p.maximum
  }

  /** The `alertas` entry a triggering parameter contributes. */
  function PendingFor(m: Machine, p: Parameter, ids: map<string, nat>): PendingAlert
    requires CoversMeasured(m.components) && CoversMeasured(ids) && NameOf(m, p.component).Some?
  {
    var name := NameOf(m, p.component).value;
    PendingAlert(p.id, ids[name], name, p.level)
  }

  /**
   * `alertas`: the triggering parameters of `ps`, in table order.  Each entry names a
   * measured component, carries the capture id recorded for that component, and a
   * parameter id of `ps`.
   */
  function Firing(m: Machine, ps: seq<Parameter>, reg: map<string, real>, ids: map<string, nat>): (r: seq<PendingAlert>)
    requires CoversMeasured(m.components) && CoversMeasured(reg) && CoversMeasured(ids)
    ensures |r| <= |ps|
    ensures forall k :: 0 <= k < |r| ==>
      && r[k].componentName in Measured
      && r[k].capture == ids[r[k].componentName]
      && r[k].parameter in ParameterIds(ps)
    decreases |ps|
  {
    if ps == [] then []
    else
      var rest := Firing(m, ps[..|ps| - 1], reg, ids);
      var p := ps[|ps| - 1];
      assert ParameterIds(ps[..|ps| - 1]) <= ParameterIds(ps) by {
        forall q | q in ps[..|ps| - 1] ensures q in ps { }
      }
      if Triggers(m, p, reg) then rest + [PendingFor(m, p, ids)] else rest
  }

  /** The indices of `ps` whose parameter fires. */
  function TriggeredAt(m: Machine, ps: seq<Parameter>, reg: map<string, real>): set<int>
    requires CoversMeasured(m.components) && CoversMeasured(reg)
  {
    set i | 0 <= i < |ps| && Triggers(m, ps[i], reg)
  }

  /** Every entry of `alertas` comes from a triggering parameter. */
  lemma {:induction false} FiringSound(m: Machine, ps: seq<Parameter>, reg: map<string, real>, ids: map<string, nat>, k: int)
    requires CoversMeasured(m.components) && CoversMeasured(reg) && CoversMeasured(ids)
    requires 0 <= k < |Firing(m, ps, reg, ids)|
    ensures exists i :: 0 <= i < |ps| && Triggers(m, ps[i], reg) && Firing(m, ps, reg, ids)[k] == PendingFor(m, ps[i], ids)
    decreases |ps|
  {
    var init := ps[..|ps| - 1];
    var rest := Firing(m, init, reg, ids);
    if k < |rest| {
      FiringSound(m, init, reg, ids, k);
      var i :| 0 <= i < |init| && Triggers(m, init[i], reg) && rest[k] == PendingFor(m, init[i], ids);
      assert ps[i] == init[i];
    } else {
      assert Triggers(m, ps[|ps| - 1], reg);
    }
  }

  /** Every triggering parameter has its entry in `alertas`. */
  lemma {:induction false} FiringComplete(m: Machine, ps: seq<Parameter>, reg: map<string, real>, ids: map<string, nat>, i: int)
    requires CoversMeasured(m.components) && CoversMeasured(reg) && CoversMeasured(ids)
    requires 0 <= i < |ps| && Triggers(m, ps[i], reg)
    ensures PendingFor(m, ps[i], ids) in Firing(m, ps, reg, ids)
    decreases |ps|
  {
    var init := ps[..|ps| - 1];
    if i < |ps| - 1 {
      FiringComplete(m, init, reg, ids, i);
      assert init[i] == ps[i];
    }
  }

  /** One `alertas` entry per triggering parameter: no more, no fewer. */
  lemma {:induction false} FiringCount(m: Machine, ps: seq<Parameter>, reg: map<string, real>, ids: map<string, nat>)
    requires CoversMeasured(m.components) && CoversMeasured(reg) && CoversMeasured(ids)
    ensures |Firing(m, ps, reg, ids)| == |TriggeredAt(m, ps, reg)|
    decreases |ps|
  {
    if ps != [] {
      var n := |ps| - 1;
      var init := ps[..n];
      FiringCount(m, init, reg, ids);
      var before := TriggeredAt(m, init, reg);
      assert n !in before;
      if Triggers(m, ps[n], reg) {
        assert TriggeredAt(m, ps, reg) == before + {n};
      } else {
        assert TriggeredAt(m, ps, reg) == before;
      }
    }
  }

  /** The last entry of `alertas` comes from the last triggering parameter in table order. */
  lemma {:induction false} FiringLast(m: Machine, ps: seq<Parameter>, reg: map<string, real>, ids: map<string, nat>, j: int)
    requires CoversMeasured(m.components) && CoversMeasured(reg) && CoversMeasured(ids)
    requires 0 <= j < |ps| && Triggers(m, ps[j], reg)
    requires forall i :: j < i < |ps| ==> !Triggers(m, ps[i], reg)
    ensures var r := Firing(m, ps, reg, ids); r != [] && r[|r| - 1] == PendingFor(m, ps[j], ids)
    decreases |ps|
  {
    if j < |ps| - 1 {
      var init := ps[..|ps| - 1];
      assert !Triggers(m, ps[|ps| - 1], reg);
      forall i | j < i < |init| ensures !Triggers(m, init[i], reg) {
        assert init[i] == ps[i];
      }
      FiringLast(m, init, reg, ids, j);
      assert init[j] == ps[j];
    }
  }

  /** Nothing fired exactly when no parameter's band contains its component's value. */
  lemma FiringEmpty(m: Machine, ps: seq<Parameter>, reg: map<string, real>, ids: map<string, nat>)
    requires CoversMeasured(m.components) && CoversMeasured(reg) && CoversMeasured(ids)
    ensures Firing(m, ps, reg, ids) == [] <==> forall i :: 0 <= i < |ps| ==> !Triggers(m, ps[i], reg)
  {
    FiringCount(m, ps, reg, ids);
    if exists i :: 0 <= i < |ps| && Triggers(m, ps[i], reg) {
      var i :| 0 <= i < |ps| && Triggers(m, ps[i], reg);
      assert i in TriggeredAt(m, ps, reg);
    } else {
      assert TriggeredAt(m, ps, reg) == {};
    }
  }

  /**
   * The machine's status after the cycle: every `UPDATE Maquina` of the cycle hits the
   * same row, so the last one wins; with no alert, it is `Stable`.  A machine without
   * a row in Maquina is not updated.
   */
  function StatusAfter(status: map<nat, string>, machine: nat, pending: seq<PendingAlert>): (r: map<nat, string>)
    ensures r.Keys == status.Keys
    ensures forall k :: k in status && k != machine ==> r[k] == status[k]
    ensures machine in status && pending != [] ==> r[machine] in set pa | pa in pending :: pa.level
  {
    if machine !in status then status
    else status[machine := if pending == [] then Stable else pending[|pending| - 1].level]
  }

  /**
   * The status left by a cycle is `Stable` when no parameter fired, and otherwise the
   * level of the last parameter in table order that fired (not necessarily the most
   * severe); no other machine's status changes.
   */
  lemma StatusFollowsLastTrigger(m: Machine, ps: seq<Parameter>, reg: map<string, real>, ids: map<string, nat>, status: map<nat, string>)
    requires CoversMeasured(m.components) && CoversMeasured(reg) && CoversMeasured(ids)
    ensures var s := StatusAfter(status, m.id, Firing(m, ps, reg, ids));
      && s.Keys == status.Keys
      && (forall k :: k in status && k != m.id ==> s[k] == status[k])
      && (m.id in status && (forall i :: 0 <= i < |ps| ==> !Triggers(m, ps[i], reg)) ==> s[m.id] == Stable)
      && (forall j :: m.id in status && 0 <= j < |ps| && Triggers(m, ps[j], reg) && (forall i :: j < i < |ps| ==> !Triggers(m, ps[i], reg))
            ==> s[m.id] == ps[j].level)
  {
    FiringEmpty(m, ps, reg, ids);
    forall j | m.id in status && 0 <= j < |ps| && Triggers(m, ps[j], reg) && (forall i :: j < i < |ps| ==> !Triggers(m, ps[i], reg))
      ensures StatusAfter(status, m.id, Firing(m, ps, reg, ids))[m.id] == ps[j].level
    {
      FiringLast(m, ps, reg, ids, j);
    }
  }

  /**
   * Two bands of one component that both contain the value: both fire, and the status
   * ends at the level of the later parameter in table order even though the earlier
   * one is the more severe.
   */
  lemma LastLevelWinsOverSeverity()
    ensures var m := Machine(1, map["CPU" := 3, "Memoria" := 1, "Disco" := 2, "Ping" := 6]);
      var ps := [Parameter(10, 3, "Cr\U{ED}tico", 85.0, 100.0), Parameter(11, 3, "Aten\U{E7}\U{E3}o", 80.0, 94.0)];
      var pending := Firing(m, ps, Registros(90.0, 4.0, 100.0), CaptureIdsFrom(7));
      && pending == [PendingAlert(10, 7, "CPU", "Cr\U{ED}tico"), PendingAlert(11, 7, "CPU", "Aten\U{E7}\U{E3}o")]
      && StatusAfter(map[1 := Stable], 1, pending) == map[1 := "Aten\U{E7}\U{E3}o"]
  {
    var m := Machine(1, map["CPU" := 3, "Memoria" := 1, "Disco" := 2, "Ping" := 6]);
    var ps := [Parameter(10, 3, "Cr\U{ED}tico", 85.0, 100.0), Parameter(11, 3, "Aten\U{E7}\U{E3}o", 80.0, 94.0)];
    assert ps[..1] == [ps[0]] && ps[..1][..0] == [];
  }

  /** The text of an outbox row: "Uso de <name> a <rounded value><unit>". */
  function AlertMessage(name: string, value: real, unit: string, fm: NumberFormats): (r: string)
    ensures |r| >= 10 + |name| + |unit| && r[..7] == "Uso de " && r[7..7 + |name|] == name
    ensures r[|r| - |unit|..] == unit
  {
    "Uso de " + name + " a " + fm.rounded(value) + unit
  }

  predicate NamesMeasured(pending: seq<PendingAlert>) {
    forall k :: 0 <= k < |pending| ==> pending[k].componentName in Measured
  }

  /** The outbox row written for one `alertas` entry, with id `id` and `enviado = 0`. */
  function AlertRow(pa: PendingAlert, m: Machine, reg: map<string, real>, components: map<nat, Component>, fm: NumberFormats, id: nat): Alert
    requires CoversMeasured(m.components) && CoversMeasured(reg) && HasFormatting(m, components)
    requires pa.componentName in Measured
  {
    var unit := components[m.components[pa.componentName]].formatting;
    Alert(id, pa.parameter, pa.capture, Flag(0), AlertMessage(pa.componentName, reg[pa.componentName], unit, fm))
  }

  /** The outbox rows of a cycle, numbered from `first` in the order of `pending`. */
  function AlertRows(pending: seq<PendingAlert>, m: Machine, reg: map<string, real>, components: map<nat, Component>, fm: NumberFormats, first: nat): (r: seq<Alert>)
    requires CoversMeasured(m.components) && CoversMeasured(reg) && HasFormatting(m, components)
    requires NamesMeasured(pending)
    ensures |r| == |pending|
    ensures forall k :: 0 <= k < |r| ==>
      && r[k].id == first + k && IsPending(r[k])
      && r[k].parameter == pending[k].parameter && r[k].capture == pending[k].capture
  {
    seq(|pending|, k requires 0 <= k < |pending| => AlertRow(pending[k], m, reg, components, fm, first + k))
  }

  /** `mensagens_slack`: one notice per `alertas` entry, in the same order. */
  function Notices(pending: seq<PendingAlert>, m: Machine, reg: map<string, real>, now: Timestamp): (r: seq<Notice>)
    requires CoversMeasured(reg) && NamesMeasured(pending)
    ensures |r| == |pending|
    ensures forall k :: 0 <= k < |r| ==>
      && r[k].level == pending[k].level && r[k].componentName == pending[k].componentName
      && r[k].machine == m.id && r[k].at == now
  {
    seq(|pending|, k requires 0 <= k < |pending| =>
      Notice(pending[k].level, m.id, pending[k].componentName, reg[pending[k].componentName], now))
  }

  /**
   * Every outbox row a cycle writes is pending, names a parameter whose band contains
   * the value just sampled, and points at the capture written in the same cycle for
   * that parameter's component.
   */
  lemma AlertsReferenceThisCycle(m: Machine, ps: seq<Parameter>, cpu: real, memory: real, disk: real, now: Timestamp,
                                 components: map<nat, Component>, fm: NumberFormats, firstCapture: nat, firstAlert: nat)
    requires Monitors(m) && HasFormatting(m, components)
    ensures var reg := Registros(cpu, memory, disk);
      var caps := NewCaptures(m, reg, now, firstCapture);
      var rows := AlertRows(Firing(m, ps, reg, CaptureIdsFrom(firstCapture)), m, reg, components, fm, firstAlert);
      forall k :: 0 <= k < |rows| ==>
        && rows[k].id == firstAlert + k
        && rows[k].sent == Flag(0)
        && exists i, c :: (0 <= i < |ps| && 0 <= c < |caps|
             && Triggers(m, ps[i], reg) && rows[k].parameter == ps[i].id
             && rows[k].capture == caps[c].id && caps[c].component == ps[i].component)
  {
    var reg := Registros(cpu, memory, disk);
    var ids := CaptureIdsFrom(firstCapture);
    var caps := NewCaptures(m, reg, now, firstCapture);
    var pending := Firing(m, ps, reg, ids);
    var rows := AlertRows(pending, m, reg, components, fm, firstAlert);
    forall k | 0 <= k < |rows|
      ensures exists i, c :: (0 <= i < |ps| && 0 <= c < |caps|
        && Triggers(m, ps[i], reg) && rows[k].parameter == ps[i].id
        && rows[k].capture == caps[c].id && caps[c].component == ps[i].component)
    {
      FiringSound(m, ps, reg, ids, k);
      var i :| 0 <= i < |ps| && Triggers(m, ps[i], reg) && pending[k] == PendingFor(m, ps[i], ids);
      var name := NameOf(m, ps[i].component).value;
      var c := if name == "CPU" then 0 else if name == "Memoria" then 1 else 2;
      assert rows[k].capture == caps[c].id && caps[c].component == ps[i].component;
    }
  }

  /**
   * The loop over `parametros`: collects, in table order, an `alertas` entry for every
   * parameter of the measured components whose band contains the current value.
   */
  method SelectFiring(m: Machine, parameters: seq<Parameter>, reg: map<string, real>, ids: map<string, nat>)
    returns (pending: seq<PendingAlert>)
    requires CoversMeasured(m.components) && CoversMeasured(reg) && CoversMeasured(ids)
    ensures pending == Firing(m, parameters, reg, ids)
  {
    pending := [];
    for i := 0 to |parameters|
      invariant pending == Firing(m, parameters[..i], reg, ids)
    {
      assert parameters[..i + 1][..i] == parameters[..i];
      var p := parameters[i];
      var name := NameOf(m, p.component);
      if name.Some? {
        var value := reg[name.value];
        if p.minimum <= value <= p.maximum {
          pending := pending + [PendingAlert(p.id, ids[name.value], name.value, p.level)];
        }
      }
    }
    assert parameters[..|parameters|] == parameters;
  }

  /**
   * The loop over `registros`: the capture rows inserted before the first commit, and
   * the `ids_captura` it records, each name's id being that of its new row.
   */
  method StageCaptures(m: Machine, registros: map<string, real>, now: Timestamp, first: nat)
    returns (rows: seq<Capture>, idsCaptura: map<string, nat>)
    requires CoversMeasured(m.components) && CoversMeasured(registros)
    ensures rows == NewCaptures(m, registros, now, first)
    ensures idsCaptura == CaptureIdsFrom(first)
    ensures forall k :: 0 <= k < |Measured| ==> idsCaptura[Measured[k]] == rows[k].id
  {
    rows, idsCaptura := [], map[];
    for i := 0 to |Measured|
      invariant rows == NewCaptures(m, registros, now, first)[..i]
      invariant forall k :: 0 <= k < i ==> Measured[k] in idsCaptura && idsCaptura[Measured[k]] == first + k
      invariant idsCaptura.Keys == set k | 0 <= k < i :: Measured[k]
    {
      var name := Measured[i];
      rows := rows + [Capture(first + i, m.components[name], registros[name], now)];
      idsCaptura := idsCaptura[name := first + i];
    }
    assert idsCaptura == CaptureIdsFrom(first) by {
      assert Measured[0] == "CPU" && Measured[1] == "Memoria" && Measured[2] == "Disco";
      assert idsCaptura.Keys == {"CPU", "Memoria", "Disco"};
    }
  }

  /**
   * The loop over `alertas`: the outbox rows inserted before the second commit, the
   * status after its successive UPDATEs (or after the single "Estável" UPDATE when
   * `alertas` is empty), and `mensagens_slack`.
   */
  method StageAlerts(alertas: seq<PendingAlert>, m: Machine, registros: map<string, real>,
                     components: map<nat, Component>, fm: NumberFormats, now: Timestamp,
                     status: map<nat, string>, firstAlert: nat)
    returns (rows: seq<Alert>, newStatus: map<nat, string>, notices: seq<Notice>)
    requires CoversMeasured(m.components) && CoversMeasured(registros) && HasFormatting(m, components)
    requires NamesMeasured(alertas)
    ensures rows == AlertRows(alertas, m, registros, components, fm, firstAlert)
    ensures newStatus == StatusAfter(status, m.id, alertas)
    ensures notices == Notices(alertas, m, registros, now)
  {
    rows, newStatus, notices := [], status, [];
    if alertas != [] {
      for i := 0 to |alertas|
        invariant rows == AlertRows(alertas[..i], m, registros, components, fm, firstAlert)
        invariant newStatus == if i == 0 then status else StatusAfter(status, m.id, alertas[..i])
        invariant notices == Notices(alertas[..i], m, registros, now)
      {
        var pa := alertas[i];
        var formatacao := components[m.components[pa.componentName]].formatting;
        var mensagem := AlertMessage(pa.componentName, registros[pa.componentName], formatacao, fm);
        rows := rows + [Alert(firstAlert + i, pa.parameter, pa.capture, Flag(0), mensagem)];
        if m.id in newStatus {
          newStatus := newStatus[m.id := pa.level];
        }
        notices := notices + [Notice(pa.level, m.id, pa.componentName, registros[pa.componentName], now)];
      }
      assert alertas[..|alertas|] == alertas;
    } else if m.id in newStatus {
      newStatus := newStatus[m.id := Stable];
    }
  }

  /** Appending a cycle's captures keeps the capture numbering and every alert's references. */
  lemma CaptureCommitKeepsConsistent(m: Machine, parameters: seq<Parameter>, captures: seq<Capture>, nextCapture: nat,
                                     alerts: seq<Alert>, nextAlert: nat, reg: map<string, real>, now: Timestamp)
    requires Consistent(parameters, captures, nextCapture, alerts, nextAlert)
    requires CoversMeasured(m.components) && CoversMeasured(reg)
    ensures CaptureIds(captures) <= CaptureIds(captures + NewCaptures(m, reg, now, nextCapture))
    ensures Consistent(parameters, captures + NewCaptures(m, reg, now, nextCapture), nextCapture + |Measured|, alerts, nextAlert)
  {
    var caps := captures + NewCaptures(m, reg, now, nextCapture);
    forall c | c in captures ensures c in caps { }
    assert CaptureIds(captures) <= CaptureIds(caps);
    assert CapturesNumbered(caps, nextCapture + |Measured|);
  }

  /** Rows numbered on from the counter keep the outbox numbering. */
  lemma AppendKeepsNumbering(alerts: seq<Alert>, next: nat, rows: seq<Alert>)
    requires AlertsNumbered(alerts, next)
    requires forall k :: 0 <= k < |rows| ==> rows[k].id == next + k
    ensures AlertsNumbered(alerts + rows, next + |rows|)
  {
    var all := alerts + rows;
    forall i, j | 0 <= i < j < |all| ensures all[i].id < all[j].id {
      if j >= |alerts| {
        assert all[j].id == next + (j - |alerts|);
      }
    }
  }

  /** The alert rows of a cycle point at that cycle's captures and at existing parameters. */
  lemma RowsReferenceCycle(m: Machine, parameters: seq<Parameter>, captures: seq<Capture>, nextCapture: nat,
                           reg: map<string, real>, now: Timestamp, components: map<nat, Component>,
                           fm: NumberFormats, nextAlert: nat)
    requires CoversMeasured(m.components) && CoversMeasured(reg) && HasFormatting(m, components)
    ensures var pending := Firing(m, parameters, reg, CaptureIdsFrom(nextCapture));
      forall a :: a in AlertRows(pending, m, reg, components, fm, nextAlert) ==>
        && a.capture in CaptureIds(NewCaptures(m, reg, now, nextCapture))
        && a.capture in CaptureIds(captures + NewCaptures(m, reg, now, nextCapture))
        && a.parameter in ParameterIds(parameters)
  {
    var caps := captures + NewCaptures(m, reg, now, nextCapture);
    var pending := Firing(m, parameters, reg, CaptureIdsFrom(nextCapture));
    var rows := AlertRows(pending, m, reg, components, fm, nextAlert);
    forall a | a in rows
      ensures a.capture in CaptureIds(NewCaptures(m, reg, now, nextCapture))
      ensures a.capture in CaptureIds(caps) && a.parameter in ParameterIds(parameters)
    {
      var k :| 0 <= k < |rows| && rows[k] == a;
      var name := pending[k].componentName;
      var c := if name == "CPU" then 0 else if name == "Memoria" then 1 else 2;
      assert NewCaptures(m, reg, now, nextCapture)[c].id == a.capture;
      assert caps[|captures| + c].id == a.capture;
    }
  }

  /** Appending a cycle's alert rows, after its captures, keeps the store consistent. */
  lemma AlertCommitKeepsConsistent(m: Machine, parameters: seq<Parameter>, captures: seq<Capture>, nextCapture: nat,
                                   alerts: seq<Alert>, nextAlert: nat, reg: map<string, real>, now: Timestamp,
                                   components: map<nat, Component>, fm: NumberFormats)
    requires CoversMeasured(m.components) && CoversMeasured(reg) && HasFormatting(m, components)
    requires Consistent(parameters, captures + NewCaptures(m, reg, now, nextCapture), nextCapture + |Measured|, alerts, nextAlert)
    ensures var pending := Firing(m, parameters, reg, CaptureIdsFrom(nextCapture));
      Consistent(parameters, captures + NewCaptures(m, reg, now, nextCapture), nextCapture + |Measured|,
                 alerts + AlertRows(pending, m, reg, components, fm, nextAlert), nextAlert + |pending|)
  {
    var pending := Firing(m, parameters, reg, CaptureIdsFrom(nextCapture));
    var rows := AlertRows(pending, m, reg, components, fm, nextAlert);
    RowsReferenceCycle(m, parameters, captures, nextCapture, reg, now, components, fm, nextAlert);
    AppendKeepsNumbering(alerts, nextAlert, rows);
  }

  /**
   * `inserir_dados_e_alertas`: commits the three captures, then writes one pending
   * outbox row per firing parameter and the machine's new status in a second commit,
   * and returns one notice per alert.  A store error rolls back whatever is not yet
   * committed and yields no notices.
   */
  method InsertCapturesAndAlerts(db: Database, m: Machine, cpu: real, memory: real, disk: real,
                                 now: Timestamp, fm: NumberFormats, fault: StoreFault)
    returns (notices: seq<Notice>)
    requires db.Valid() && Monitors(m) && HasFormatting(m, db.components)
    modifies db
    ensures db.Valid()
    ensures db.components == old(db.components) && db.parameters == old(db.parameters)
    ensures fault == FailsBeforeCaptureCommit ==>
      db.captures == old(db.captures) && db.nextCaptureId == old(db.nextCaptureId)
    ensures fault != FailsBeforeCaptureCommit ==>
      && db.captures == old(db.captures) + NewCaptures(m, Registros(cpu, memory, disk), now, old(db.nextCaptureId))
      && db.nextCaptureId == old(db.nextCaptureId) + |Measured|
    ensures fault != NoFault ==>
      && notices == []
      && db.alerts == old(db.alerts) && db.nextAlertId == old(db.nextAlertId)
      && db.machineStatus == old(db.machineStatus)
    ensures fault == NoFault ==>
      var reg := Registros(cpu, memory, disk);
      var pending := Firing(m, old(db.parameters), reg, CaptureIdsFrom(old(db.nextCaptureId)));
      && db.alerts == old(db.alerts) + AlertRows(pending, m, reg, old(db.components), fm, old(db.nextAlertId))
      && db.nextAlertId == old(db.nextAlertId) + |pending|
      && db.machineStatus == StatusAfter(old(db.machineStatus), m.id, pending)
      && notices == Notices(pending, m, reg, now)
  {
    var registros := Registros(cpu, memory, disk);
    CaptureCommitKeepsConsistent(m, db.parameters, db.captures, db.nextCaptureId, db.alerts, db.nextAlertId, registros, now);
    AlertCommitKeepsConsistent(m, db.parameters, db.captures, db.nextCaptureId, db.alerts, db.nextAlertId,
                               registros, now, db.components, fm);
    var newCaptures, idsCaptura := StageCaptures(m, registros, now, db.nextCaptureId);
    if fault == FailsBeforeCaptureCommit {
      // The connection closes without a commit: the inserted captures are rolled back.
      return [];
    }
    db.captures, db.nextCaptureId := db.captures + newCaptures, db.nextCaptureId + |Measured|;

    var alertas := SelectFiring(m, db.parameters, registros, idsCaptura);
    var rows, status;
    rows, status, notices := StageAlerts(alertas, m, registros, db.components, fm, now, db.machineStatus, db.nextAlertId);
    if fault == FailsAfterCaptureCommit {
      // The alert rows and the status UPDATE are rolled back.
      return [];
    }
    db.alerts, db.nextAlertId, db.machineStatus := db.alerts + rows, db.nextAlertId + |rows|, status;
  }

  /**
   * `inserir_ping`: commits one capture of the machine's Ping component and touches
   * nothing else; a store error leaves the store as it was.
   */
  method InsertPing(db: Database, m: Machine, ping: real, now: Timestamp, fails: bool)
    requires db.Valid() && PingName in m.components
    modifies db
    ensures db.Valid()
    ensures db.captures == if fails then old(db.captures)
                           else old(db.captures) + [Capture(old(db.nextCaptureId), m.components[PingName], ping, now)]
    ensures db.nextCaptureId == if fails then old(db.nextCaptureId) else old(db.nextCaptureId) + 1
    ensures db.alerts == old(db.alerts) && db.nextAlertId == old(db.nextAlertId)
    ensures db.machineStatus == old(db.machineStatus)
    ensures db.components == old(db.components) && db.parameters == old(db.parameters)
  {
    if !fails {
      db.captures, db.nextCaptureId := db.captures + [Capture(db.nextCaptureId, m.components[PingName], ping, now)], db.nextCaptureId + 1;
    }
  }
}
