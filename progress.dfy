/**
 The per-user progress record that the bot keeps in its `userProgress` map,
 and the two pure computations made on it: the completed-step count of the
 message handler and the step number shown in a step prompt.

 A record is a plain JavaScript object. It always has a numeric `step` key,
 has a `startTime` key when it was written by the start button, and gains a
 key set to `true` for each step button the user presses. The model keeps
 those step keys in the order they were first set, which is the order
 `Object.keys` lists them in.
 */
module Progress {
  import opened Wrappers

  /** The three onboarding steps, one per step button. */
  datatype StepId = BusinessInfo | ProjectRequirements | TimelineBudget

  /** The step buttons, in the order of the list of step ids the button
      handler tests against. */
  const AllSteps: seq<StepId> := [BusinessInfo, ProjectRequirements, TimelineBudget]

  /** A step's button custom id, which is also the key its flag is stored under. */
  function CustomId(s: StepId): string {
    match s
    case BusinessInfo => "business_info"
    case ProjectRequirements => "project_requirements"
    case TimelineBudget => "timeline_budget"
  }

  /** The membership test on the list of step ids: which step, if any, a
      button's custom id names. */
  function ParseStep(id: string): (r: Option<StepId>)
    ensures r.Some? ==> CustomId(r.value) == id
    ensures forall s :: CustomId(s) == id ==> r == Some(s)
  {
    if id == "business_info" then Some(BusinessInfo)
    else if id == "project_requirements" then Some(ProjectRequirements)
    else if id == "timeline_budget" then Some(TimelineBudget)
    else None
  }

  /** The number printed in a step prompt, chosen by comparing the custom id
      with the first two step ids; every other id gets 3. */
  function StepNumber(id: string): (n: nat)
    ensures 1 <= n <= |AllSteps|
    ensures ParseStep(id).Some? ==> AllSteps[n - 1] == ParseStep(id).value
  {
    if id == "business_info" then 1
    else if id == "project_requirements" then 2
    else 3
  }

  /** The question a step prompt asks. */
  function PromptText(s: StepId): string {
    match s
    case BusinessInfo => "Please describe your business and what services you need."
    case ProjectRequirements => "What specific features or functionality do you need?"
    case TimelineBudget => "What is your preferred timeline and budget range?"
  }

  /** No step occurs twice: object keys are unique. */
  predicate Distinct(fs: seq<StepId>) {
    forall i, j :: 0 <= i < j < |fs| ==> fs[i] != fs[j]
  }

  /** A progress record: the `step` number, the optional `startTime`, and the
      steps whose flag is set, in the order they were first set. */
  datatype Progress = Progress(step: int, startTime: Option<int>, flags: seq<StepId>) {
    predicate WellFormed() {
      Distinct(flags)
    }
  }

  /** The record the start button writes: `step` 1, the press time, no flags. */
  function Started(now: int): Progress {
    Progress(1, Some(now), [])
  }

  /** The record a step button falls back to when the user has none: `step` 0 only. */
  const Fresh: Progress := Progress(0, None, [])

  /** Setting a step's key to `true` on a record: a key already present keeps
      its place, a new key goes last. */
  function SetFlag(p: Progress, s: StepId): (q: Progress)
    ensures q.step == p.step && q.startTime == p.startTime
    ensures forall t :: t in q.flags <==> t in p.flags || t == s
    ensures |p.flags| <= |q.flags| && q.flags[..|p.flags|] == p.flags
    ensures p.WellFormed() ==> q.WellFormed()
  {
    if s in p.flags then p else p.(flags := p.flags + [s])
  }

  /** True when every step's flag is set. */
  predicate AllStepsSet(p: Progress) {
    forall s: StepId :: s in p.flags
  }

  lemma AllStepsSetByCases(p: Progress)
    requires BusinessInfo in p.flags && ProjectRequirements in p.flags && TimelineBudget in p.flags
    ensures AllStepsSet(p)
  {
    forall s: StepId ensures s in p.flags {
      match s
      case BusinessInfo =>
      case ProjectRequirements =>
      case TimelineBudget =>
    }
  }

  // ----- The record seen as a JavaScript object -----

  /** The values a record's keys can hold, and `undefined` for absent keys. */
  datatype JsValue = Number(n: int) | Bool(b: bool) | Undefined

  /** JavaScript truthiness of those values. */
  predicate Truthy(v: JsValue) {
    match v
    case Number(n) => n != 0
    case Bool(b) => b
    case Undefined => false
  }

  const StepKey: string := "step"
  const StartTimeKey: string := "startTime"

  function FlagKeys(fs: seq<StepId>): (ks: seq<string>)
    ensures |ks| == |fs|
  {
    if fs == [] then [] else [CustomId(fs[0])] + FlagKeys(fs[1..])
  }

  /** `Object.keys(progress)`, in insertion order. */
  function Keys(p: Progress): seq<string> {
    [StepKey] + (if p.startTime.Some? then [StartTimeKey] else []) + FlagKeys(p.flags)
  }

  /** `progress[key]`. */
  function Get(p: Progress, key: string): JsValue {
    if key == StepKey then Number(p.step)
    else if key == StartTimeKey then (if p.startTime.Some? then Number(p.startTime.value) else Undefined)
    else match ParseStep(key)
      case Some(s) => if s in p.flags then Bool(true) else Undefined
      case None => Undefined
  }

  /** The filter the message handler applies to each key. */
  predicate IsCompletedKey(p: Progress, key: string) {
    key != StepKey && key != StartTimeKey && Truthy(Get(p, key))
  }

  /** How many of `keys` pass the filter. */
  function CountCompleted(p: Progress, keys: seq<string>): (n: nat)
    ensures n <= |keys|
  {
    if keys == [] then 0
    else (if IsCompletedKey(p, keys[0]) then 1 else 0) + CountCompleted(p, keys[1..])
  }

  /** The completed-step count: the number of keys of the record, other than
      `step` and `startTime`, whose value is truthy. */
  function CompletedSteps(p: Progress): nat {
    CountCompleted(p, Keys(p))
  }

  // ----- Lemmas about the count -----

  lemma {:induction false} CountCompletedAppend(p: Progress, a: seq<string>, b: seq<string>)
    ensures CountCompleted(p, a + b) == CountCompleted(p, a) + CountCompleted(p, b)
  {
    if a == [] {
      assert a + b == b;
    } else {
      assert (a + b)[1..] == a[1..] + b;
      CountCompletedAppend(p, a[1..], b);
    }
  }

  /** Every key of a flag that is set passes the filter. */
  lemma {:induction false} FlagKeysAllCount(p: Progress, fs: seq<StepId>)
    requires forall s :: s in fs ==> s in p.flags
    ensures CountCompleted(p, FlagKeys(fs)) == |fs|
  {
    if fs != [] {
      assert ParseStep(CustomId(fs[0])) == Some(fs[0]);
      assert IsCompletedKey(p, CustomId(fs[0]));
      assert FlagKeys(fs) == [CustomId(fs[0])] + FlagKeys(fs[1..]);
      CountCompletedAppend(p, [CustomId(fs[0])], FlagKeys(fs[1..]));
      FlagKeysAllCount(p, fs[1..]);
    }
  }

  /** The count ignores `step` and `startTime` and counts exactly the set flags. */
  lemma CompletedStepsIsFlagCount(p: Progress)
    ensures CompletedSteps(p) == |p.flags|
  {
    var head := [StepKey] + (if p.startTime.Some? then [StartTimeKey] else []);
    assert Keys(p) == head + FlagKeys(p.flags);
    CountCompletedAppend(p, head, FlagKeys(p.flags));
    if p.startTime.Some? {
      CountCompletedAppend(p, [StepKey], [StartTimeKey]);
    }
    FlagKeysAllCount(p, p.flags);
  }

  function FlagSet(fs: seq<StepId>): set<StepId> {
    set s | s in fs
  }

  lemma {:induction false} DistinctCardinality(fs: seq<StepId>)
    requires Distinct(fs)
    ensures |FlagSet(fs)| == |fs|
  {
    if fs != [] {
      assert Distinct(fs[1..]) by {
        forall i, j | 0 <= i < j < |fs| - 1 ensures fs[1..][i] != fs[1..][j] {
          assert fs[i + 1] != fs[j + 1];
        }
      }
      DistinctCardinality(fs[1..]);
      assert FlagSet(fs) == {fs[0]} + FlagSet(fs[1..]);
      assert fs[0] !in FlagSet(fs[1..]) by {
        forall k | 0 <= k < |fs| - 1 ensures fs[1..][k] != fs[0] {
          assert fs[k + 1] != fs[0];
        }
      }
    }
  }

  lemma SubsetCardinality(a: set<StepId>, b: set<StepId>)
    requires a <= b
    ensures |a| <= |b|
  {
    assert b == a + (b - a);
    assert a * (b - a) == {};
  }

  /** The completion test of the message handler: on a well-formed record the
      count never exceeds three, and reaches three exactly when all three step
      flags are set. */
  lemma CompletionCriterion(p: Progress)
    requires p.WellFormed()
    ensures CompletedSteps(p) == |p.flags| <= 3
    ensures CompletedSteps(p) >= 3 <==> AllStepsSet(p)
  {
    CompletedStepsIsFlagCount(p);
    DistinctCardinality(p.flags);
    var all := {BusinessInfo, ProjectRequirements, TimelineBudget};
    assert |all| == 3;
    SubsetCardinality(FlagSet(p.flags), all);
    if AllStepsSet(p) {
      assert all <= FlagSet(p.flags);
    }
    if |p.flags| >= 3 && !AllStepsSet(p) {
      var s: StepId :| s !in p.flags;
      var others := match s
        case BusinessInfo => {ProjectRequirements, TimelineBudget}
        case ProjectRequirements => {BusinessInfo, TimelineBudget}
        case TimelineBudget => {BusinessInfo, ProjectRequirements};
      assert |others| == 2;
      SubsetCardinality(FlagSet(p.flags), others);
      assert false;
    }
  }
}
