/** The step runner of the terminal front end (internal/ui/ui.go). Spinners are
    reduced to the final line each one shows; prompts are not part of this module. */
module Ui {
  import opened Common

  /** A titled unit of work; `run` stands for the closure the step executes. */
  datatype Step = Step(title: string, run: () -> Option<Error>)

  /** The line a spinner is left showing when its work ends. */
  datatype SpinnerEnd = Succeeded(text: string) | FailedWith(text: string)

  /** What a spinner titled `title` ends with: the title on success, the title and
      the error text on failure. */
  function SpinnerResult(title: string, err: Option<Error>): (shown: SpinnerEnd)
    ensures shown.Succeeded? <==> err.None?
    ensures |title| <= |shown.text| && shown.text[..|title|] == title
  {
    match err
    case None => Succeeded(title)
    case Some(e) => FailedWith(title + ": " + e)
  }

  /** Runs `fn` under a spinner and passes its result and error through unchanged. */
  method StepSpinner<T>(title: string, fn: () -> (T, Option<Error>))
    returns (res: T, err: Option<Error>, shown: SpinnerEnd)
    ensures res == fn().0 && err == fn().1
    ensures shown == SpinnerResult(title, err)
  {
    var out := fn();
    res, err := out.0, out.1;
    if err.Some? {
      shown := FailedWith(title + ": " + err.value);
      return;
    }
    shown := Succeeded(title);
  }

  /** Runs the steps one after the other and stops at the first that fails.
      `invoked` lists the positions of the steps run, in the order they ran;
      `shown` is what each of their spinners ended with. */
  method RunSteps(steps: seq<Step>) returns (err: Option<Error>, invoked: seq<nat>, shown: seq<SpinnerEnd>)
    ensures |invoked| <= |steps|
    ensures forall k :: 0 <= k < |invoked| ==> invoked[k] == k
    ensures forall k :: 0 <= k < |invoked| - 1 ==> steps[k].run().None?
    ensures err.None? <==> forall k :: 0 <= k < |steps| ==> steps[k].run().None?
    ensures err.None? ==> |invoked| == |steps|
    ensures err.Some? ==> 0 < |invoked| && err == steps[|invoked| - 1].run()
    ensures |shown| == |invoked|
    ensures forall k :: 0 <= k < |shown| ==> shown[k] == SpinnerResult(steps[k].title, steps[k].run())
  {
    invoked, shown := [], [];
    var i := 0;
    while i < |steps|
      invariant 0 <= i <= |steps|
      invariant |invoked| == i && forall k :: 0 <= k < i ==> invoked[k] == k
      invariant forall k :: 0 <= k < i ==> steps[k].run().None?
      invariant |shown| == i
      invariant forall k :: 0 <= k < i ==> shown[k] == SpinnerResult(steps[k].title, steps[k].run())
    {
      var s := steps[i];
      var _, e, sh := StepSpinner<()>(s.title, () => ((), s.run()));
      invoked, shown := invoked + [i], shown + [sh];
      if e.Some? {
        err := e;
        return;
      }
      i := i + 1;
    }
    err := None;
  }
}
