/**
 * The request handlers for user management: required-field validation and
 * defaulting on enrollment, the uid lookup, the user count, and the mapping of
 * a service failure to a 500 answer. The handlers are stateless; what the
 * session answered is passed in as a `Result`.
 */
module UserController {
  import opened Wrappers
  import opened Js
  import Zk = ZkClient
  import Spec = SessionSpec

  /** The JSON body of an enrollment request; every field may be missing. */
  datatype EnrollBody = EnrollBody(
    uid: Option<int>,
    userid: Option<string>,
    name: Option<string>,
    password: Option<string>,
    role: Option<int>,
    cardno: Option<int>)

  datatype Payload =
    | Message(text: string)
    | Acknowledged(ack: Spec.Ack)
    | UserList(data: seq<Zk.UserRecord>, count: int)
    | SingleUser(user: Zk.UserRecord)

  /** An HTTP status with a JSON body `{ success, ... }`. */
  datatype Response = Response(status: int, success: bool, payload: Payload)

  /** A handler's answer, with the arguments it passed to the service when it reached it. */
  datatype Handled<A> = Handled(serviceCall: Option<A>, response: Response)

  const RequiredFieldsMessage: string := "uid, userid, and name are required"
  const UserNotFoundMessage: string := "User not found"

  /** The 500 answer for a failure the service threw: its message, or the handler's fallback when empty. */
  function ErrorResponse(e: Spec.SessionError, fallback: string): (r: Response)
    ensures r.status == 500 && !r.success && r.payload.Message?
    ensures Spec.ErrorMessage(e) != "" ==> r.payload.text == Spec.ErrorMessage(e)
    ensures Spec.ErrorMessage(e) == "" ==> r.payload.text == fallback
  {
    var message := Spec.ErrorMessage(e);
    Response(500, false, Message(if message != "" then message else fallback))
  }

  /** The answer of a handler that returns the service's acknowledgement as it is. */
  function Forward(service: Result<Spec.Ack, Spec.SessionError>, fallback: string): (r: Response)
    ensures service.Ok? ==> r.status == 200 && r.success && r.payload == Acknowledged(service.value)
    ensures service.Err? ==> r == ErrorResponse(service.error, fallback)
  {
    match service
    case Ok(ack) => Response(200, true, Acknowledged(ack))
    case Err(e) => ErrorResponse(e, fallback)
  }

  /** The enrollment check: `uid`, `userid` and `name` must all be truthy. */
  predicate HasRequiredFields(body: EnrollBody)
  {
    TruthyNumber(body.uid) && TruthyText(body.userid) && TruthyText(body.name)
  }

  /** The `setUser` arguments of a valid request: optional fields fall back to '', 0 and 0. */
  function EnrollFields(body: EnrollBody): (f: Zk.UserFields)
    requires HasRequiredFields(body)
    ensures f.uid == body.uid.value && f.uid != 0
    ensures f.userid == body.userid.value && f.userid != ""
    ensures f.name == body.name.value && f.name != ""
    ensures f.password == (if TruthyText(body.password) then body.password.value else "")
    ensures f.role == (if TruthyNumber(body.role) then body.role.value else 0)
    ensures f.cardno == (if TruthyNumber(body.cardno) then body.cardno.value else 0)
  {
    Zk.UserFields(
      body.uid.value,
      body.userid.value,
      body.name.value,
      TextOrDefault(body.password, ""),
      NumberOr(body.role, 0),
      NumberOr(body.cardno, 0))
  }

  /**
   * `enrollUser`: `service` is what the session's `setUser` answers, used only
   * when the request gets that far.
   */
  function EnrollUser(body: EnrollBody, service: Result<Spec.Ack, Spec.SessionError>): (h: Handled<Zk.UserFields>)
    ensures h.serviceCall.None? <==> !HasRequiredFields(body)
    ensures !HasRequiredFields(body) ==> h.response == Response(400, false, Message(RequiredFieldsMessage))
    ensures HasRequiredFields(body) ==> h.serviceCall == Some(EnrollFields(body))
    ensures HasRequiredFields(body) ==> h.response == Forward(service, "Failed to enroll user")
  {
    if !HasRequiredFields(body) then
      Handled(None, Response(400, false, Message(RequiredFieldsMessage)))
    else
      Handled(Some(EnrollFields(body)), Forward(service, "Failed to enroll user"))
  }

  /** A request whose uid is 0 or missing is turned away before it reaches the service, whatever the service would say. */
  lemma EnrollRejectsFalsyUid(body: EnrollBody, a: Result<Spec.Ack, Spec.SessionError>, b: Result<Spec.Ack, Spec.SessionError>)
    requires body.uid == Some(0) || body.uid.None?
    ensures EnrollUser(body, a) == EnrollUser(body, b)
    ensures EnrollUser(body, a).serviceCall.None? && EnrollUser(body, a).response.status == 400
  {
  }

  /**
   * A valid request on a live session whose `setUser` call returns is answered
   * 200 with the request's fields echoed back (defaults applied, password
   * withheld), after exactly one `setUser` call carrying the password too.
   */
  lemma EnrollEchoesRequest(body: EnrollBody, s: Spec.State, outcome: Zk.Outcome)
    requires HasRequiredFields(body) && Spec.Live(s) && outcome.Pass?
    ensures var step := Spec.SetUser(s, EnrollFields(body), outcome);
            var h := EnrollUser(body, step.result);
            step.calls == [Zk.SetUser(Zk.UserFields(body.uid.value, body.userid.value, body.name.value,
                                                   TextOrDefault(body.password, ""),
                                                   NumberOr(body.role, 0), NumberOr(body.cardno, 0)))] &&
            h.response == Response(200, true, Acknowledged(Spec.Enrolled("User enrolled successfully",
              Spec.EnrolledUser(body.uid.value, body.userid.value, body.name.value,
                                NumberOr(body.role, 0), NumberOr(body.cardno, 0)))))
  {
  }

  /** `getUsers`: the list as the service read it, with its length as `count`. */
  function GetUsers(service: Result<seq<Zk.UserRecord>, Spec.SessionError>): (r: Response)
    ensures service.Ok? ==>
              r.status == 200 && r.success && r.payload.UserList? &&
              r.payload.data == service.value && r.payload.count == |r.payload.data|
    ensures service.Err? ==> r == ErrorResponse(service.error, "Failed to get users")
  {
    match service
    case Ok(users) => Response(200, true, UserList(users, |users|))
    case Err(e) => ErrorResponse(e, "Failed to get users")
  }

  /**
   * Whether a record answers `u.uid === requested`. The requested uid is the
   * parsed route parameter; `None` stands for NaN, which equals nothing.
   */
  predicate Matches(u: Zk.UserRecord, requested: Option<int>)
  {
    requested.Some? && u.uid == requested.value
  }

  /** The position `users.find` stops at: the first matching record. */
  function FirstMatch(users: seq<Zk.UserRecord>, requested: Option<int>): (r: Option<nat>)
    ensures r.Some? ==>
              r.value < |users| && Matches(users[r.value], requested) &&
              forall j :: 0 <= j < r.value ==> !Matches(users[j], requested)
    ensures r.None? ==> forall j :: 0 <= j < |users| ==> !Matches(users[j], requested)
    decreases |users|
  {
    if users == [] then None
    else if Matches(users[0], requested) then Some(0)
    else
      match FirstMatch(users[1..], requested)
      case None => None
      case Some(i) => Some(i + 1)
  }

  /** `getUser`: the first record with the requested uid, or 404. */
  function GetUser(requested: Option<int>, service: Result<seq<Zk.UserRecord>, Spec.SessionError>): (r: Response)
    ensures service.Err? ==> r == ErrorResponse(service.error, "Failed to get user")
    ensures service.Ok? ==>
              (r.status == 404 <==> forall j :: 0 <= j < |service.value| ==> !Matches(service.value[j], requested))
    ensures service.Ok? && r.status == 404 ==> r == Response(404, false, Message(UserNotFoundMessage))
    ensures service.Ok? && r.status != 404 ==>
              r.status == 200 && r.success && r.payload.SingleUser? &&
              exists i :: 0 <= i < |service.value| && service.value[i] == r.payload.user &&
                          Matches(service.value[i], requested) &&
                          forall j :: 0 <= j < i ==> !Matches(service.value[j], requested)
  {
    match service
    case Err(e) => ErrorResponse(e, "Failed to get user")
    case Ok(users) =>
      match FirstMatch(users, requested)
      case None => Response(404, false, Message(UserNotFoundMessage))
      case Some(i) => Response(200, true, SingleUser(users[i]))
  }

  /** `deleteUser`: the service's acknowledgement, or the 500 answer. */
  function DeleteUser(service: Result<Spec.Ack, Spec.SessionError>): (r: Response)
    ensures service.Ok? <==> r.status == 200
    ensures service.Ok? ==> r.success && r.payload == Acknowledged(service.value)
    ensures service.Err? ==> r == ErrorResponse(service.error, "Failed to delete user")
  {
    Forward(service, "Failed to delete user")
  }

  /** `clearAllUsers`: the service's acknowledgement, or the 500 answer. */
  function ClearAllUsers(service: Result<Spec.Ack, Spec.SessionError>): (r: Response)
    ensures service.Ok? <==> r.status == 200
    ensures service.Ok? ==> r.success && r.payload == Acknowledged(service.value)
    ensures service.Err? ==> r == ErrorResponse(service.error, "Failed to clear all users")
  {
    Forward(service, "Failed to clear all users")
  }

  /** A device command refused for lack of a connection reaches the client as a 500 with the session's message. */
  lemma NotConnectedIs500(fallback: string)
    ensures ErrorResponse(Spec.NotConnected, fallback) ==
              Response(500, false, Message("Device not connected. Please connect first."))
  {
  }
}
