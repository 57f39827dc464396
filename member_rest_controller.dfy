/** The REST endpoints under /api/members: each wraps the service's result in a
    {success, message, data} envelope. A service exception is not caught by
    any handler, so it propagates as an `Err` carrying its message. */
module MemberRestController {
  import opened Common
  import opened MemberEntity
  import opened MemberRepository
  import opened MemberService

  /** The `data` field of the envelope: a key, a name or a flag; never a password. */
  datatype Payload = MemberKey(id: int) | MemberName(name: string) | Flag(flag: bool)

  datatype ApiResponse = ApiResponse(success: bool, message: string, data: Payload)

  const LoginMemberId := "LOGIN_MEMBER_ID"
  const SignupDone := "회원가입 완료"
  const LoginDone := "로그인 성공"
  const Duplicated := "중복"
  const Available := "사용 가능"

  /** The check-email envelope for a duplicate flag. */
  function CheckEmailResponse(duplicated: bool): (r: ApiResponse)
    ensures r.success && r.data == Flag(duplicated)
    ensures r.message == Duplicated <==> duplicated
    ensures r.message == Available <==> !duplicated
  {
    ApiResponse(true, if duplicated then Duplicated else Available, Flag(duplicated))
  }

  /** The servlet session of one client: its attributes. */
  class HttpSession {
    var attributes: map<string, int>

    constructor ()
      ensures attributes == map[]
    {
      attributes := map[];
    }
  }

  class MemberRestController {
    const service: MemberService

    constructor (service: MemberService)
      ensures this.service == service
    {
      this.service := service;
    }

    /** POST /signup: the saved row's key in the envelope, or the service's
        exception. The body is bound as it comes, key included. */
    method Signup(dto: MemberDto) returns (r: Result<ApiResponse, string>)
      requires service.Valid()
      modifies service
      ensures service.Valid()
      ensures r.Ok? <==> !ExistsByEmail(old(service.table), dto.email)
      ensures r.Ok? ==>
                var saved := SaveRequest(old(service.table), old(service.nextId), dto);
                && r.value == ApiResponse(true, SignupDone, MemberKey(saved.row.id))
                && service.table == saved.table
      ensures r.Ok? && !Merges(old(service.table), dto.id) ==>
                && r.value.data == MemberKey(old(service.nextId))
                && service.table == old(service.table) + [FromDto(dto, old(service.nextId))]
      ensures r.Ok? && Merges(old(service.table), dto.id) ==>
                r.value.data == MemberKey(dto.id.value) && |service.table| == |old(service.table)|
      ensures r.Err? ==> r.error == EmailTaken && service.table == old(service.table)
    {
      var saved := service.Signup(dto);
      match saved
      case Err(e) => r := Err(e);
      case Ok(m) => r := Ok(ApiResponse(true, SignupDone, MemberKey(m.id)));
    }

    /** POST /login: on success binds LOGIN_MEMBER_ID to the member's key and
        answers with the name; a failure throws before the session is written. */
    method Login(email: string, password: string, session: HttpSession) returns (r: Result<ApiResponse, string>)
      modifies session
      ensures Authenticate(service.table, email, password).Ok? ==>
                var m := Authenticate(service.table, email, password).value;
                && r == Ok(ApiResponse(true, LoginDone, MemberName(m.name)))
                && session.attributes == old(session.attributes)[LoginMemberId := m.id]
      ensures Authenticate(service.table, email, password).Err? ==>
                && r == Err(Authenticate(service.table, email, password).error)
                && session.attributes == old(session.attributes)
    {
      var found := service.Login(email, password);
      match found
      case Err(e) => r := Err(e);
      case Ok(m) =>
        session.attributes := session.attributes[LoginMemberId := m.id];
        r := Ok(ApiResponse(true, LoginDone, MemberName(m.name)));
    }

    /** GET /check-email. */
    method CheckEmail(email: string) returns (r: ApiResponse)
      ensures r == CheckEmailResponse(ExistsByEmail(service.table, email))
    {
      var duplicated := service.IsEmailDuplicated(email);
      r := CheckEmailResponse(duplicated);
    }
  }
}
