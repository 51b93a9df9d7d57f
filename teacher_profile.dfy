/** The teacher profile page: the Canvas access token's status, and the
    dialog that saves a new token. Backend replies are inputs; the requests
    the page sends and the notifications it shows go to an event log. */
module TeacherProfile {
  import opened Common

  /** What the backend says about the stored token; `hasToken` holds the
      truthiness of the reply's field. */
  datatype TokenStatus = TokenStatus(hasToken: bool, last4: Option<string>)

  /** The parsed body of `token-status`, or `StatusUnreadable` when the
      request or the body parse threw. Every field may be missing. */
  datatype StatusReply =
    | StatusUnreadable
    | StatusBody(status: Option<string>, hasToken: Option<bool>, last4: Option<string>)

  /** The parsed body of `save-token`, or `SaveUnreadable` when the request
      or the body parse threw. */
  datatype SaveReply =
    | SaveUnreadable
    | SaveBody(status: Option<string>, last4: Option<string>)

  /** The signed-in user as the auth client returns it. */
  datatype User = User(id: string, firstName: Option<string>, lastName: Option<string>, email: Option<string>)

  datatype TeacherInfo = TeacherInfo(firstName: string, lastName: string, email: string)

  datatype Toast =
    | StatusFetchFailed             // "Could not fetch token status. Please try again."
    | TokenSaved(description: string)
    | SaveFailed                    // "Could not save token. Please try again."

  datatype Event =
    | TokenStatusRequested(teacherId: string)
    | SaveTokenRequested(teacherId: string, canvasToken: string)
    | Notified(toast: Toast)

  /** `tokenStatus?.hasToken`. */
  predicate HasToken(ts: Option<TokenStatus>) {
    ts.Some? && ts.value.hasToken
  }

  predicate StatusOk(reply: StatusReply) {
    reply.StatusBody? && reply.status == Some("ok")
  }

  predicate SaveOk(reply: SaveReply) {
    reply.SaveBody? && reply.status == Some("ok")
  }

  /** `tokenStatus` after a status fetch: replaced by the reply's fields on
      status "ok", kept otherwise. */
  function StatusAfterFetch(ts: Option<TokenStatus>, reply: StatusReply): Option<TokenStatus> {
    if StatusOk(reply) then Some(TokenStatus(reply.hasToken == Some(true), reply.last4)) else ts
  }

  /** `tokenStatus` after a save: a connected token with the reply's last
      four characters on status "ok", kept otherwise. */
  function StatusAfterSave(ts: Option<TokenStatus>, reply: SaveReply): Option<TokenStatus> {
    if SaveOk(reply) then Some(TokenStatus(true, reply.last4)) else ts
  }

  /** The success toast's text, chosen by the status from before the save. */
  function SuccessDescription(previous: Option<TokenStatus>): string {
    if HasToken(previous) then "Token updated successfully." else "Token saved successfully."
  }

  /** The save handler goes on only with a signed-in teacher and a token
      that is not blank once trimmed. */
  predicate SaveGuardPasses(teacherId: Option<string>, canvasToken: string) {
    TruthyString(teacherId) && !IsBlank(canvasToken)
  }

  /** The Save button is disabled while the token is blank once trimmed, and
      while a save is in flight. */
  predicate SaveDisabled(canvasToken: string, saving: bool) {
    IsBlank(canvasToken) || saving
  }

  /** The status badge: "Canvas connected" or "Not connected". */
  function StatusBadge(ts: Option<TokenStatus>): string {
    if HasToken(ts) then "Canvas connected" else "Not connected"
  }

  /** The masked line `Token: ****...<last4>`, shown only for a connected
      token whose last four characters are present and non-empty. */
  function MaskedToken(ts: Option<TokenStatus>): Option<string> {
    if HasToken(ts) && TruthyString(ts.value.last4) then Some("****..." + ts.value.last4.value) else None
  }

  /** The success message says "updated" exactly when a token was connected
      before the save, and "saved" otherwise. */
  lemma SuccessDescriptionIff(previous: Option<TokenStatus>)
    ensures SuccessDescription(previous) == "Token updated successfully." <==> HasToken(previous)
    ensures SuccessDescription(previous) == "Token saved successfully." <==> !HasToken(previous)
  {
    assert "Token saved successfully."[6] != "Token updated successfully."[6];
  }

  /** A whitespace-only token disables Save and is refused by the handler;
      with a teacher signed in, an enabled Save button always gets past the guard. */
  lemma SaveButtonMatchesGuard(teacherId: Option<string>, canvasToken: string, saving: bool)
    ensures AllWhitespace(canvasToken) ==> SaveDisabled(canvasToken, saving) && !SaveGuardPasses(teacherId, canvasToken)
    ensures TruthyString(teacherId) && !SaveDisabled(canvasToken, saving) ==> SaveGuardPasses(teacherId, canvasToken)
    ensures !AllWhitespace(canvasToken) && !saving ==> !SaveDisabled(canvasToken, saving)
  {
    BlankIffAllWhitespace(canvasToken);
  }

  /** The masked line appears exactly for a connected token with a non-empty
      `last4`, and then ends with those characters. */
  lemma MaskedTokenIff(ts: Option<TokenStatus>)
    ensures MaskedToken(ts).Some? <==> HasToken(ts) && TruthyString(ts.value.last4)
    ensures MaskedToken(ts).Some? ==>
      var m := MaskedToken(ts).value;
      |m| == 7 + |ts.value.last4.value| && m[7..] == ts.value.last4.value && m[..7] == "****..."
  {
  }

  /** A save answered "ok" connects the token whatever was shown before, and
      any other reply leaves the status alone. */
  lemma SaveTransitions(ts: Option<TokenStatus>, reply: SaveReply)
    ensures SaveOk(reply) ==> HasToken(StatusAfterSave(ts, reply)) && StatusBadge(StatusAfterSave(ts, reply)) == "Canvas connected"
    ensures SaveOk(reply) ==> StatusAfterSave(ts, reply).value.last4 == reply.last4
    ensures !SaveOk(reply) ==> StatusAfterSave(ts, reply) == ts
  {
  }

  /** A status fetch changes the status only on status "ok"; a second fetch
      with the same reply changes nothing more. */
  lemma FetchTransitions(ts: Option<TokenStatus>, reply: StatusReply)
    ensures !StatusOk(reply) ==> StatusAfterFetch(ts, reply) == ts
    ensures StatusOk(reply) ==>
      && StatusAfterFetch(ts, reply).Some?
      && (HasToken(StatusAfterFetch(ts, reply)) <==> reply.hasToken == Some(true))
      && StatusAfterFetch(ts, reply).value.last4 == reply.last4
    ensures StatusAfterFetch(StatusAfterFetch(ts, reply), reply) == StatusAfterFetch(ts, reply)
  {
  }

  /** The page for a teacher whose stored token ends in "1234". */
  lemma ConnectedTokenExample()
    ensures var ts := StatusAfterFetch(None, StatusBody(Some("ok"), Some(true), Some("1234")));
      && StatusBadge(ts) == "Canvas connected"
      && MaskedToken(ts) == Some("****...1234")
      && SuccessDescription(ts) == "Token updated successfully."
  {
    assert "1234" != "";
    assert "****..." + "1234" == "****...1234";
  }

  /** A first save: with no token connected, a save answered "ok" with last
      four "1234" shows the connected badge and the masked token, and the
      success toast says "saved". */
  lemma FirstSaveExample()
    ensures var before := Some(TokenStatus(false, None));
      var after := StatusAfterSave(before, SaveBody(Some("ok"), Some("1234")));
      && StatusBadge(before) == "Not connected"
      && StatusBadge(after) == "Canvas connected"
      && MaskedToken(after) == Some("****...1234")
      && SuccessDescription(before) == "Token saved successfully."
  {
    assert "1234" != "";
    assert "****..." + "1234" == "****...1234";
  }

  class TeacherProfilePage {
    var teacherId: Option<string>
    var teacherInfo: Option<TeacherInfo>
    var tokenStatus: Option<TokenStatus>
    var loading: bool
    var isModalOpen: bool
    var canvasToken: string
    var saving: bool
    var events: seq<Event>

    constructor ()
      ensures teacherId == None && teacherInfo == None && tokenStatus == None
      ensures loading && !isModalOpen && canvasToken == "" && !saving && events == []
    {
      teacherId, teacherInfo, tokenStatus := None, None, None;
      loading, isModalOpen, canvasToken, saving := true, false, "", false;
      events := [];
    }

    /** `fetchTokenStatus(userId)`: the status is replaced only on status
        "ok", any other outcome is reported, and loading ends on every path. */
    method FetchTokenStatus(userId: string, reply: StatusReply)
      modifies this`tokenStatus, this`loading, this`events
      ensures !loading
      ensures tokenStatus == StatusAfterFetch(old(tokenStatus), reply)
      ensures events == old(events) + [TokenStatusRequested(userId)]
        + if StatusOk(reply) then [] else [Notified(StatusFetchFailed)]
    {
      events := events + [TokenStatusRequested(userId)];
      if reply.StatusBody? && reply.status == Some("ok") {
        tokenStatus := Some(TokenStatus(reply.hasToken == Some(true), reply.last4));
      } else {
        events := events + [Notified(StatusFetchFailed)];
      }
      loading := false;
    }

    /** The mount effect: with a signed-in user, record its id and details
        and fetch the token status; without one, just stop loading. */
    method Mount(user: Option<User>, reply: StatusReply)
      modifies this`teacherId, this`teacherInfo, this`tokenStatus, this`loading, this`events
      ensures !loading
      ensures user.None? ==>
        teacherId == old(teacherId) && teacherInfo == old(teacherInfo)
        && tokenStatus == old(tokenStatus) && events == old(events)
      ensures user.Some? ==>
        && teacherId == Some(user.value.id)
        && teacherInfo == Some(TeacherInfo(user.value.firstName.GetOr(""), user.value.lastName.GetOr(""), user.value.email.GetOr("")))
        && tokenStatus == StatusAfterFetch(old(tokenStatus), reply)
        && events == old(events) + [TokenStatusRequested(user.value.id)]
          + if StatusOk(reply) then [] else [Notified(StatusFetchFailed)]
    {
      if user.Some? {
        var u := user.value;
        teacherId := Some(u.id);
        teacherInfo := Some(TeacherInfo(u.firstName.GetOr(""), u.lastName.GetOr(""), u.email.GetOr("")));
        FetchTokenStatus(u.id, reply);
      } else {
        loading := false;
      }
    }

    /** `openModal`: an empty token input in an open dialog. */
    method OpenModal()
      modifies this`canvasToken, this`isModalOpen
      ensures canvasToken == "" && isModalOpen
      ensures SaveDisabled(canvasToken, saving)
    {
      canvasToken := "";
      isModalOpen := true;
    }

    /** `handleSaveToken`: refused without a teacher id or with a blank
        token; otherwise the token is sent as typed (untrimmed). On status
        "ok" the status becomes connected, the dialog closes and the input
        empties; on anything else they stay as they were. Saving ends false. */
    method HandleSaveToken(reply: SaveReply)
      modifies this`tokenStatus, this`isModalOpen, this`canvasToken, this`saving, this`events
      ensures !SaveGuardPasses(old(teacherId), old(canvasToken)) ==> unchanged(this)
      ensures SaveGuardPasses(old(teacherId), old(canvasToken)) ==>
        && !saving
        && tokenStatus == StatusAfterSave(old(tokenStatus), reply)
        && events == old(events) + [SaveTokenRequested(teacherId.value, old(canvasToken))]
          + [Notified(if SaveOk(reply) then TokenSaved(SuccessDescription(old(tokenStatus))) else SaveFailed)]
      ensures SaveGuardPasses(old(teacherId), old(canvasToken)) && SaveOk(reply) ==>
        !isModalOpen && canvasToken == ""
      ensures SaveGuardPasses(old(teacherId), old(canvasToken)) && !SaveOk(reply) ==>
        isModalOpen == old(isModalOpen) && canvasToken == old(canvasToken)
    {
      if !TruthyString(teacherId) || IsBlank(canvasToken) {
        return;
      }
      var previous := tokenStatus;
      saving := true;
      events := events + [SaveTokenRequested(teacherId.value, canvasToken)];
      if reply.SaveBody? && reply.status == Some("ok") {
        tokenStatus := Some(TokenStatus(true, reply.last4));
        isModalOpen := false;
        canvasToken := "";
        events := events + [Notified(TokenSaved(SuccessDescription(previous)))];
      } else {
        events := events + [Notified(SaveFailed)];
      }
      saving := false;
    }
  }
}
