/**
 * The check-in dialog. Pressing the button shows a loading label and
 * disables the button; two seconds later the check-in always succeeds, the
 * success panel replaces the controls, and two seconds after that the
 * dialog asks its parent to close it. No position is measured: the
 * "within 100 m" line is fixed text.
 */
module CheckInModal {

  import opened Wrappers

  /** The fields of a job the dialog shows. */
  datatype Job = Job(title: string, company: string, location: string, startTime: string, endTime: string)

  const ButtonLabel: string := "출근 체크하기"
  const LoadingLabel: string := "출근 체크 중..."

  /** What the component renders. */
  datatype View =
    | NoRender
    | Form(title: string, buttonLabel: string, buttonDisabled: bool)
    | SuccessPanel(title: string)

  /**
   * The dialog's own state. `closeRequests` counts the `onClose` calls made
   * by the timer that follows a check-in.
   */
  class Dialog {
    var isCheckedIn: bool
    var isLoading: bool
    var closeTimerPending: bool
    var closeRequests: nat

    /** Loading and checked in never hold together, and the close timer only runs after a check-in. */
    ghost predicate Valid()
      reads this
    {
      && !(isLoading && isCheckedIn)
      && (closeTimerPending ==> isCheckedIn)
    }

    constructor ()
      ensures Valid() && !isCheckedIn && !isLoading && !closeTimerPending && closeRequests == 0
    {
      isCheckedIn := false;
      isLoading := false;
      closeTimerPending := false;
      closeRequests := 0;
    }

    /** The check-in button is on screen and enabled. */
    predicate ButtonEnabled()
      reads this
    {
      !isCheckedIn && !isLoading
    }

    /**
     * A click on the check-in button: the first step of `handleCheckIn`,
     * which sets the loading flag. A click on a disabled or absent button
     * does nothing.
     */
    method ClickCheckIn()
      requires Valid()
      modifies this
      ensures Valid()
      ensures old(ButtonEnabled()) ==> isLoading && !isCheckedIn && !ButtonEnabled()
      ensures !old(ButtonEnabled()) ==> isLoading == old(isLoading) && isCheckedIn == old(isCheckedIn)
      ensures closeTimerPending == old(closeTimerPending) && closeRequests == old(closeRequests)
    {
      if ButtonEnabled() {
        isLoading := true;
      }
    }

    /**
     * The two-second wait ends: the check-in succeeds unconditionally, the
     * loading flag drops, and the close timer starts.
     */
    method CompleteCheckIn()
      requires Valid() && isLoading
      modifies this
      ensures Valid()
      ensures isCheckedIn && !isLoading && closeTimerPending && closeRequests == old(closeRequests)
    {
      isCheckedIn := true;
      isLoading := false;
      closeTimerPending := true;
    }

    /** The close timer fires and calls `onClose`; the checked-in state stays. */
    method FireCloseTimer()
      requires Valid() && closeTimerPending
      modifies this
      ensures Valid()
      ensures !closeTimerPending && closeRequests == old(closeRequests) + 1
      ensures isCheckedIn && !isLoading
    {
      closeTimerPending := false;
      closeRequests := closeRequests + 1;
    }

    /** The rendered output for the `job` prop: nothing without a job, else the controls or the success panel. */
    function Render(job: Option<Job>): (v: View)
      reads this
      ensures job.None? <==> v == NoRender
      ensures job.Some? && !isCheckedIn ==> v == Form(job.value.title, if isLoading then LoadingLabel else ButtonLabel, isLoading)
      ensures job.Some? && isCheckedIn ==> v == SuccessPanel(job.value.title)
    {
      if job.None? then NoRender
      else if !isCheckedIn then Form(job.value.title, if isLoading then LoadingLabel else ButtonLabel, isLoading)
      else SuccessPanel(job.value.title)
    }
  }

  /**
   * Whenever a form is shown, its button is disabled exactly when it reads
   * "출근 체크 중...", and the success panel is shown only once no request
   * is loading.
   */
  lemma LoadingLabelIffDisabled(d: Dialog, job: Option<Job>)
    requires d.Valid()
    ensures d.Render(job).Form? ==> (d.Render(job).buttonDisabled <==> d.Render(job).buttonLabel == LoadingLabel)
    ensures d.Render(job).SuccessPanel? ==> !d.isLoading
  {
  }

  /** A click, the wait, and the close timer: the whole check-in, from a fresh dialog. */
  method CheckInRun(job: Job) returns (d: Dialog)
    ensures d.Valid() && d.Render(Some(job)) == SuccessPanel(job.title) && d.closeRequests == 1
  {
    d := new Dialog();
    assert d.Render(Some(job)) == Form(job.title, ButtonLabel, false);
    d.ClickCheckIn();
    assert d.Render(Some(job)) == Form(job.title, LoadingLabel, true);
    d.CompleteCheckIn();
    d.FireCloseTimer();
  }
}
