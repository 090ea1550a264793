/**
 * The feedback form: three required text fields and a feedback type, a
 * submit that validates the trimmed fields before inserting, and the
 * messages and resets that follow the insert's outcome.  The insert itself
 * is outside the model; its success or failure is a parameter.
 */
module FeedbackForm {
  import opened Wrappers
  import opened Text


  /** The row a submit inserts. */
  datatype FeedbackRow = FeedbackRow(name: string, email: string, kind: string, message: string)

  const RequiredMessage: string := "All fields are required."
  const FailureMessage: string := "Failed to send feedback. Please try again."

  /** Some field is nothing but white space: the submit is refused and the button is disabled. */
  predicate Incomplete(name: string, email: string, message: string)
  {
    IsBlank(name) || IsBlank(email) || IsBlank(message)
  }

  /** Checking the three trimmed fields for emptiness decides exactly whether the form is incomplete. */
  lemma TrimmedEmptyIffIncomplete(name: string, email: string, message: string)
    ensures (Trim(name) == "" || Trim(email) == "" || Trim(message) == "") <==> Incomplete(name, email, message)
  {
    TrimEmptyIffBlank(name);
    TrimEmptyIffBlank(email);
    TrimEmptyIffBlank(message);
  }

  /** The submit's emptiness test of one field: the field trims to nothing exactly when it is blank. */
  method TrimsToEmpty(field: string) returns (empty: bool)
    ensures empty <==> IsBlank(field)
  {
    TrimEmptyIffBlank(field);
    empty := Trim(field) == "";
  }

  /** The message box's hint for a feedback type; every type but "problem" and "idea" gets the appreciation hint. */
  function Placeholder(feedbackType: string): (hint: string)
    ensures feedbackType == "problem" ==> hint == "Describe the problem you faced..."
    ensures feedbackType == "idea" ==> hint == "Share your idea to improve Finly..."
    ensures feedbackType != "problem" && feedbackType != "idea" ==> hint == "Share your appreciation or encouragement..."
  {
    if feedbackType == "problem" then "Describe the problem you faced..."
    else if feedbackType == "idea" then "Share your idea to improve Finly..."
    else "Share your appreciation or encouragement..."
  }

  /** The form's state. */
  class Form {
    var feedbackType: string
    var name: string
    var email: string
    var message: string
    var submitted: bool
    var error: string

    /** A fresh form reports a problem and has every field empty. */
    constructor()
      ensures feedbackType == "problem" && name == "" && email == "" && message == ""
      ensures !submitted && error == ""
    {
      feedbackType := "problem";
      name := "";
      email := "";
      message := "";
      submitted := false;
      error := "";
    }

    /** The submit button is disabled under exactly the condition the submit refuses. */
    predicate SubmitDisabled()
      reads this
      ensures SubmitDisabled() <==> Incomplete(name, email, message)
    {
      TrimmedEmptyIffIncomplete(name, email, message);
      Trim(name) == "" || Trim(email) == "" || Trim(message) == ""
    }

    method SetName(value: string)
      modifies this
      ensures name == value
      ensures feedbackType == old(feedbackType) && email == old(email) && message == old(message)
      ensures submitted == old(submitted) && error == old(error)
    {
      name := value;
    }

    method SetEmail(value: string)
      modifies this
      ensures email == value
      ensures feedbackType == old(feedbackType) && name == old(name) && message == old(message)
      ensures submitted == old(submitted) && error == old(error)
    {
      email := value;
    }

    method SetMessage(value: string)
      modifies this
      ensures message == value
      ensures feedbackType == old(feedbackType) && name == old(name) && email == old(email)
      ensures submitted == old(submitted) && error == old(error)
    {
      message := value;
    }

    method SetFeedbackType(value: string)
      modifies this
      ensures feedbackType == value
      ensures name == old(name) && email == old(email) && message == old(message)
      ensures submitted == old(submitted) && error == old(error)
    {
      feedbackType := value;
    }

    /**
     * Submitting clears the error, then either refuses an incomplete form,
     * or inserts the row and, on success, shows the thanks and empties the
     * three fields, or, on failure, reports the failure and keeps them.
     * The feedback type is never changed.  `insertOk` is the insert's outcome.
     */
    method Submit(insertOk: bool) returns (inserted: Option<FeedbackRow>)
      modifies this
      ensures feedbackType == old(feedbackType)
      ensures old(Incomplete(name, email, message)) ==>
        && inserted == None
        && error == RequiredMessage
        && name == old(name) && email == old(email) && message == old(message)
        && submitted == old(submitted)
      ensures !old(Incomplete(name, email, message)) ==>
        inserted == Some(FeedbackRow(old(name), old(email), old(feedbackType), old(message)))
      ensures !old(Incomplete(name, email, message)) && insertOk ==>
        && submitted && error == ""
        && name == "" && email == "" && message == ""
      ensures !old(Incomplete(name, email, message)) && !insertOk ==>
        && error == FailureMessage
        && name == old(name) && email == old(email) && message == old(message)
        && submitted == old(submitted)
    {
      error := "";
      var noName := TrimsToEmpty(name);
      var noEmail := TrimsToEmpty(email);
      var noMessage := TrimsToEmpty(message);
      var incomplete := noName || noEmail || noMessage;
      if incomplete {
        error := RequiredMessage;
        inserted := None;
      } else {
        inserted := Some(FeedbackRow(name, email, feedbackType, message));
        if !insertOk {
          error := FailureMessage;
        } else {
          submitted := true;
          name := "";
          email := "";
          message := "";
        }
      }
    }

    /** The timer that hides the thanks some seconds after a successful submit. */
    method HideThanks()
      modifies this
      ensures !submitted
      ensures feedbackType == old(feedbackType) && name == old(name) && email == old(email)
      ensures message == old(message) && error == old(error)
    {
      submitted := false;
    }
  }
}
