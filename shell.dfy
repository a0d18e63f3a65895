/** The screen flow of the application shell: email gate, profile form, mind-map
    generation with its loading and error states, and retry (src/App.tsx). */
module Shell {
  import opened Js

  const GenerationFailed := "마인드맵 생성에 실패했습니다. 다시 시도해주세요."

  /** The error text after a failed generation request with response body `responseData`:
      `details` when truthy, else `error` when truthy, else the fixed text. */
  function FailureMessage(responseData: JsValue): (msg: JsValue)
    ensures Truthy(msg)
    ensures Truthy(Get(responseData, "details")) ==> msg == Get(responseData, "details")
    ensures !Truthy(Get(responseData, "details")) && Truthy(Get(responseData, "error")) ==>
      msg == Get(responseData, "error")
    ensures !Truthy(Get(responseData, "details")) && !Truthy(Get(responseData, "error")) ==>
      msg == Str(GenerationFailed)
  {
    Or(Or(Get(responseData, "details"), Get(responseData, "error")), Str(GenerationFailed))
  }

  /** A response body of the declared `ApiError` type: a string `error` and an optional
      string `details`. */
  predicate IsApiError(body: JsValue) {
    && body.Object?
    && Get(body, "error").Str?
    && (Get(body, "details").Undefined? || Get(body, "details").Str?)
  }

  /** An error body of the declared type, or no body at all, always yields a message the
      overlay can draw. */
  lemma TypedErrorsDraw(responseData: JsValue)
    requires IsApiError(responseData) || !responseData.Object?
    ensures FailureMessage(responseData).Str? && Drawable(FailureMessage(responseData))
  {
  }

  datatype AppState = AppState(
    showEmailForm: bool, showUserInputForm: bool, mindMapData: JsValue, loading: bool, error: JsValue)

  class App {
    var showEmailForm: bool
    var showUserInputForm: bool
    var mindMapData: JsValue
    var loading: bool
    var error: JsValue

    function State(): AppState reads this {
      AppState(showEmailForm, showUserInputForm, mindMapData, loading, error)
    }

    /** The mind map is drawn only when neither form is shown and data is present: it never
        shares the screen with the email gate or the profile form. */
    predicate ShowsMindMap()
      reads this
      ensures ShowsMindMap() ==> !showEmailForm && !showUserInputForm && Truthy(mindMapData)
    {
      !showEmailForm && !showUserInputForm && Truthy(mindMapData)
    }

    /** The error overlay is rendered when an error is set and no request is pending. */
    predicate ShowsError()
      reads this
      ensures ShowsError() ==> Truthy(error) && !loading
    {
      Truthy(error) && !loading
    }

    /** Rendering the overlay throws: the stored error is an object, which React refuses as
        a child, so the page unmounts and no retry button is drawn. */
    predicate OverlayThrows() reads this {
      ShowsError() && !Drawable(error)
    }

    /** The states reachable between events: no request pending; while the gate is shown
        nothing else is set; data arrives only together with the form closing and the error
        cleared; an error is only ever set over the open profile form. */
    ghost predicate Valid() reads this {
      && !loading
      && (showEmailForm ==> !showUserInputForm && !Truthy(mindMapData) && !Truthy(error))
      && (Truthy(mindMapData) ==> !showUserInputForm && !Truthy(error))
      && (Truthy(error) ==> showUserInputForm)
    }

    /** The session starts at the email gate. */
    constructor ()
      ensures Valid()
      ensures State() == AppState(true, false, Null, false, Null)
    {
      showEmailForm := true;
      showUserInputForm := false;
      mindMapData := Null;
      loading := false;
      error := Null;
    }

    /** Submitting the email, which the gate offers only while it is shown, hides the gate and
        shows the profile form; the address itself is not kept. */
    method EmailSubmit(email: string)
      requires Valid() && showEmailForm
      modifies this
      ensures Valid()
      ensures State() == old(State()).(showEmailForm := false, showUserInputForm := true)
    {
      showEmailForm := false;
      showUserInputForm := true;
    }

    /** Submitting the profile, which the form offers only while it is shown: while the
        generation request is pending `loading` is set and the error cleared; a response
        stores its body and hides the form, a failure sets the error text and leaves the form
        up. `loading` ends false in both cases. */
    method UserInputSubmit(reply: Reply) returns (ghost pending: AppState)
      requires Valid() && showUserInputForm
      modifies this
      ensures Valid()
      ensures pending == old(State()).(loading := true, error := Null)
      ensures reply.Ok? ==>
        State() == pending.(loading := false, mindMapData := reply.body, showUserInputForm := false)
      ensures reply.Failed? ==>
        State() == pending.(loading := false, error := FailureMessage(reply.responseData))
    {
      loading := true;
      error := Null;
      pending := State();
      if reply.Ok? {
        mindMapData := reply.body;
        showUserInputForm := false;
      } else {
        error := FailureMessage(reply.responseData);
      }
      loading := false;
    }

    /** Retry, whose button sits on the error overlay, clears the error and shows the profile
        form again. */
    method Retry()
      requires Valid() && ShowsError()
      modifies this
      ensures Valid()
      ensures State() == old(State()).(error := Null, showUserInputForm := true)
    {
      error := Null;
      showUserInputForm := true;
    }
  }

  /** While the email gate is shown, neither the profile form, the mind map nor the error
      overlay is. */
  lemma GateShownAlone(app: App)
    requires app.Valid() && app.showEmailForm
    ensures !app.showUserInputForm && !app.ShowsMindMap() && !app.ShowsError()
  {
  }

  /** The mind map and the error overlay are never drawn together. */
  lemma MapAndErrorExclusive(app: App)
    requires app.Valid()
    ensures !(app.ShowsMindMap() && app.ShowsError())
  {
  }

  /** Once the mind map is drawn, none of the shell's handlers has a trigger on screen: no
      gate, no profile form and no retry button. So the map stays drawn. */
  lemma MapIsFinal(app: App)
    requires app.Valid() && app.ShowsMindMap()
    ensures !app.showEmailForm && !app.showUserInputForm && !app.ShowsError()
  {
  }

  /** A session that passes the gate and gets a map carrying `nodes` and `edges` arrays
      shows the map and no error. */
  method SuccessfulSession(email: string, generated: JsValue) returns (mapShown: bool, errorShown: bool)
    requires Get(generated, "nodes").Array? && Get(generated, "edges").Array?
    ensures mapShown && !errorShown
  {
    var app := new App();
    app.EmailSubmit(email);
    var _ := app.UserInputSubmit(Ok(generated));
    mapShown, errorShown := app.ShowsMindMap(), app.ShowsError();
  }

  /** A failed generation with an error body of the declared type (or none) draws the error
      overlay with its retry button over the still-open form and no map; retrying clears the
      error and keeps the form. */
  method FailedSessionThenRetry(email: string, responseData: JsValue)
    returns (retryDrawn: bool, mapShown: bool, formAfterRetry: bool, errorAfterRetry: bool)
    requires IsApiError(responseData) || !responseData.Object?
    ensures retryDrawn && !mapShown && formAfterRetry && !errorAfterRetry
  {
    var app := new App();
    app.EmailSubmit(email);
    var _ := app.UserInputSubmit(Failed(responseData));
    TypedErrorsDraw(responseData);
    retryDrawn, mapShown := app.ShowsError() && !app.OverlayThrows(), app.ShowsMindMap();
    app.Retry();
    formAfterRetry, errorAfterRetry := app.showUserInputForm, app.ShowsError();
  }

  /** An error body whose `details` is an object is stored as it is, and the overlay that
      would draw it throws: no retry button appears. */
  method ObjectDetailsBreakOverlay(email: string) returns (stored: JsValue, throws: bool)
    ensures stored == Object(map["code" := Number(1)]) && throws
  {
    var app := new App();
    app.EmailSubmit(email);
    var details := Object(map["code" := Number(1)]);
    var _ := app.UserInputSubmit(Failed(Object(map["details" := details])));
    stored, throws := app.error, app.OverlayThrows();
  }
}
