/**
 * The progress stepper of the sign-up pages (signupLayout.tsx): the table
 * of five steps, the current step looked up from the route, and how each
 * step, its label and the connector after it are drawn.
 */
module SignupLayout {
  import opened Wrappers

  datatype Step = Step(number: nat, name: string, path: string)

  /** `steps`. */
  const Steps: seq<Step> := [
    Step(1, "Account", "/signup/1-account"),
    Step(2, "Persona", "/signup/2-persona"),
    Step(3, "Tone", "/signup/3-tone"),
    Step(4, "Routine", "/signup/4-routine"),
    Step(5, "Finish", "/signup/5-finish")]

  /** The step table numbers its entries 1 to 5 in order, with distinct paths. */
  lemma StepsTable()
    ensures |Steps| == 5
    ensures forall i :: 0 <= i < |Steps| ==> Steps[i].number == i + 1
    ensures forall i, j :: 0 <= i < j < |Steps| ==> Steps[i].path != Steps[j].path
  {
    forall i, j | 0 <= i < j < |Steps|
      ensures Steps[i].path != Steps[j].path
    {
      assert Steps[i].path[8] != Steps[j].path[8];
    }
  }

  /** `steps.find(step => step.path === pathname)`: the first step on that route. */
  function Find(steps: seq<Step>, pathname: string): (r: Option<nat>)
    ensures r.Some? ==> r.value < |steps| && steps[r.value].path == pathname
    ensures r.Some? ==> forall j :: 0 <= j < r.value ==> steps[j].path != pathname
    ensures r.None? ==> forall j :: 0 <= j < |steps| ==> steps[j].path != pathname
  {
    if steps == [] then None
    else if steps[0].path == pathname then Some(0)
    else match Find(steps[1..], pathname)
      case None => None
      case Some(k) => Some(k + 1)
  }

  /** `find(...)?.number || 1`: the matching step's number, or 1 when none matches (or the number is 0). */
  function CurrentStep(pathname: string): (n: nat)
    ensures 1 <= n <= |Steps|
    ensures Find(Steps, pathname).Some? ==> n == Steps[Find(Steps, pathname).value].number
  {
    match Find(Steps, pathname)
    case Some(i) => if Steps[i].number != 0 then Steps[i].number else 1
    case None => 1
  }

  /** The current step is always one of the five, and it is the one whose path is the route. */
  lemma CurrentStepOfRoute(pathname: string)
    ensures 1 <= CurrentStep(pathname) <= 5
    ensures forall i :: 0 <= i < |Steps| && Steps[i].path == pathname ==> CurrentStep(pathname) == i + 1
    ensures (forall i :: 0 <= i < |Steps| ==> Steps[i].path != pathname) ==> CurrentStep(pathname) == 1
  {
    StepsTable();
  }

  /** How a step's circle is drawn. */
  datatype Status = Done | Active | Upcoming

  /** Teal for a finished step, blue for the current one, grey for the rest. */
  function StatusOf(number: nat, current: nat): (s: Status)
    ensures s == Done <==> number < current
    ensures s == Active <==> number == current
    ensures s == Upcoming <==> number > current
  {
    if number < current then Done else if number == current then Active else Upcoming
  }

  /** What the stepper shows for one step. */
  datatype StepView = StepView(status: Status, showsCheck: bool, labelDark: bool, connectorTeal: Option<bool>)

  /** The view of the step at `index`: a connector follows every step but the last. */
  function ViewOf(index: nat, current: nat): (v: StepView)
    requires index < |Steps|
    ensures v.status == StatusOf(Steps[index].number, current)
    ensures v.showsCheck <==> Steps[index].number < current
    ensures v.labelDark <==> Steps[index].number <= current
    ensures v.connectorTeal.Some? <==> index < |Steps| - 1
    ensures v.connectorTeal.Some? ==> (v.connectorTeal.value <==> Steps[index].number < current)
  {
    var step := Steps[index];
    StepView(
      StatusOf(step.number, current),
      step.number < current,
      step.number <= current,
      if index < |Steps| - 1 then Some(step.number < current) else None)
  }

  /** `steps.map(...)`: the whole stepper for the current step. */
  function Stepper(current: nat): (views: seq<StepView>)
    ensures |views| == |Steps|
    ensures forall i :: 0 <= i < |views| ==> views[i] == ViewOf(i, current)
  {
    seq(|Steps|, i requires 0 <= i < |Steps| => ViewOf(i, current))
  }

  /** Number of views with the given status. */
  function CountStatus(views: seq<StepView>, s: Status): (n: nat)
    ensures n <= |views|
  {
    if views == [] then 0 else (if views[0].status == s then 1 else 0) + CountStatus(views[1..], s)
  }

  /** For any current step in range: exactly one step is active, and the current - 1 before it are done. */
  lemma StepperShape(current: nat)
    requires 1 <= current <= |Steps|
    ensures CountStatus(Stepper(current), Active) == 1
    ensures CountStatus(Stepper(current), Done) == current - 1
    ensures Stepper(current)[current - 1].status == Active
  {
    StepsTable();
    var views := Stepper(current);
    CountPrefix(views, current, 0);
  }

  /**
   * In the views from `k` on, the statuses follow the step numbers: the
   * done ones are those below `current`, the active one is at `current`.
   */
  lemma {:induction false} CountPrefix(views: seq<StepView>, current: nat, k: nat)
    requires 1 <= current <= |Steps| && views == Stepper(current) && k <= |views|
    requires forall i :: 0 <= i < |Steps| ==> Steps[i].number == i + 1
    ensures CountStatus(views[k..], Active) == (if k < current then 1 else 0)
    ensures CountStatus(views[k..], Done) == (if k < current - 1 then current - 1 - k else 0)
    decreases |views| - k
  {
    if k < |views| {
      assert views[k..][1..] == views[k + 1..];
      CountPrefix(views, current, k + 1);
    }
  }

  /** Four connectors are drawn, and the teal ones are exactly those after a finished step. */
  lemma ConnectorsAfterFinishedSteps(current: nat)
    ensures forall i :: 0 <= i < |Steps| ==> (Stepper(current)[i].connectorTeal.Some? <==> i < 4)
    ensures forall i :: 0 <= i < 4 ==> (Stepper(current)[i].connectorTeal == Some(i + 1 < current))
  {
    StepsTable();
  }
}
