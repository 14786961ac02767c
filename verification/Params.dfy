// What a webhook caller may ask for: the deliverable and mode of a new job.

module Params {
  import opened Models
  import Serde

  // The part of an instance's configuration that decides; `planMode` is the
  // capability of its engine.
  datatype HookInstance = HookInstance(
    deliverable: string,
    defaultMode: string,
    allowOverrides: set<string>,
    allowAutoApply: bool,
    planMode: bool)

  // The two values a request may carry.
  datatype Ask = Ask(deliverable: Option<Json>, mode: Option<Json>)

  datatype ParamError = InvalidParams | CannotEnforcePlan | NoPlanMode

  ghost function DeliverableOf(v: Json): Option<Deliverable> {
    if v.JStr? then Serde.ParseDeliverable(v.s) else None
  }

  ghost function ModeOf(v: Json): Option<Mode> {
    if v.JStr? then Serde.ParseMode(v.s) else None
  }

  function AskedDeliverable(inst: HookInstance, ask: Ask): Json {
    if ask.deliverable.Some? && "deliverable" in inst.allowOverrides then ask.deliverable.value
    else JStr(inst.deliverable)
  }

  function AskedMode(inst: HookInstance, ask: Ask): Json {
    if ask.mode.Some? && "mode" in inst.allowOverrides then ask.mode.value else JStr(inst.defaultMode)
  }

  ghost function ResolveParams(inst: HookInstance, ask: Ask): Result<(Deliverable, Mode), ParamError> {
    var d, m := DeliverableOf(AskedDeliverable(inst, ask)), ModeOf(AskedMode(inst, ask));
    if d.None? || m.None? then Err(InvalidParams)
    else if d.value.MutatesCode() && m.value != Plan && !inst.allowAutoApply then
      if !inst.planMode then Err(CannotEnforcePlan) else CheckPlanMode(inst, d.value, Plan)
    else CheckPlanMode(inst, d.value, m.value)
  }

  function CheckPlanMode(inst: HookInstance, d: Deliverable, m: Mode): Result<(Deliverable, Mode), ParamError> {
    if m == Plan && !inst.planMode then Err(NoPlanMode) else Ok((d, m))
  }

  // The mode a job gets, said without the order of the checks: asked for,
  // unless it would change code without a human having seen the plan.
  function GrantedMode(inst: HookInstance, d: Deliverable, asked: Mode): Mode {
    if d.MutatesCode() && !inst.allowAutoApply then Plan else asked
  }

  // A request is accepted exactly when both values are known and the engine
  // can plan if it has to, and then with the granted mode.
  lemma Resolved(inst: HookInstance, ask: Ask, d: Deliverable, m: Mode)
    ensures ResolveParams(inst, ask) == Ok((d, m)) <==>
      && DeliverableOf(AskedDeliverable(inst, ask)) == Some(d)
      && ModeOf(AskedMode(inst, ask)).Some?
      && m == GrantedMode(inst, d, ModeOf(AskedMode(inst, ask)).value)
      && (m == Plan ==> inst.planMode)
  {
  }

  // The whole outcome, by name: which value is asked for, and what becomes of
  // it. An unknown name is an error; so is a plan that the engine cannot make,
  // with a message of its own where the caller had not asked for a plan.
  lemma ResolvedByName(inst: HookInstance, ask: Ask, d: Deliverable, m: Mode)
    requires var v := if "deliverable" in inst.allowOverrides && ask.deliverable.Some? then ask.deliverable.value
                      else JStr(inst.deliverable);
      v == JStr(Serde.DeliverableName(d))
    requires var v := if "mode" in inst.allowOverrides && ask.mode.Some? then ask.mode.value
                      else JStr(inst.defaultMode);
      v == JStr(Serde.ModeName(m))
    ensures var unseen := d in {Patch, Commit, PR} && !inst.allowAutoApply;
      ResolveParams(inst, ask) ==
      if inst.planMode then Ok((d, if unseen then Plan else m))
      else if m == Plan then Err(NoPlanMode)
      else if unseen then Err(CannotEnforcePlan)
      else Ok((d, m))
  {
    Serde.EnumNamesParseBack(d, m, Queued);
  }

  // The value that counts: the caller's where the instance lets it be
  // overridden, and otherwise the instance's own.
  lemma OnlyOverridesCount(inst: HookInstance, ask: Ask, d: Deliverable, m: Mode)
    requires ResolveParams(inst, ask) == Ok((d, m))
    ensures ask.deliverable.Some? && "deliverable" in inst.allowOverrides ==>
              ask.deliverable.value.JStr? && Serde.ParseDeliverable(ask.deliverable.value.s) == Some(d)
    ensures ask.deliverable.None? || "deliverable" !in inst.allowOverrides ==>
              Serde.ParseDeliverable(inst.deliverable) == Some(d)
    ensures d.ReadOnly() || inst.allowAutoApply ==>
              if ask.mode.Some? && "mode" in inst.allowOverrides
              then ask.mode.value.JStr? && Serde.ParseMode(ask.mode.value.s) == Some(m)
              else Serde.ParseMode(inst.defaultMode) == Some(m)
  {
    Resolved(inst, ask, d, m);
  }

  // So what may not be overridden need not be asked for.
  lemma OthersAreIgnored(inst: HookInstance, ask: Ask)
    ensures "deliverable" !in inst.allowOverrides ==>
              ResolveParams(inst, ask) == ResolveParams(inst, ask.(deliverable := None))
    ensures "mode" !in inst.allowOverrides ==> ResolveParams(inst, ask) == ResolveParams(inst, ask.(mode := None))
  {
  }

  // Whatever the caller asks for and whatever may be overridden: without the
  // opt-in, code-mutating work is planned first.
  lemma LeastPrivilege(inst: HookInstance, ask: Ask)
    requires ResolveParams(inst, ask).Ok? && !inst.allowAutoApply
    ensures var (d, m) := ResolveParams(inst, ask).value; d.MutatesCode() ==> m == Plan && inst.planMode
  {
    var (d, m) := ResolveParams(inst, ask).value;
    Resolved(inst, ask, d, m);
  }
}
