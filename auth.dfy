/** The auth session store (context/AuthContext.tsx): the stored token, the
    current user and the `loading` flag, with session restore at start-up,
    login, signup and logout. */
module Auth {
  import opened Base
  import opened Js
  import opened Api

  datatype Role = USER | ADMIN
  datatype User = User(id: int, name: string, email: string, role: Role)

  /** The body `{token, user}` of a successful login or signup. */
  datatype Credentials = Credentials(token: string, user: User)

  /** The user taken from a `/auth/me` body: the body's `user` field when the
      body and that field are truthy, otherwise the body itself. */
  function MeUser(data: Json<User>): (u: Json<User>)
    ensures Truthy(u) <==> Truthy(data)
    ensures data.Obj? && "user" in data.fields && Truthy(data.fields["user"]) ==> u == data.fields["user"]
    ensures !(data.Obj? && "user" in data.fields && Truthy(data.fields["user"])) ==> u == data
  {
    if Truthy(data) && Truthy(Get(data, "user").value) then Get(data, "user").value else data
  }

  /** Both shapes the session endpoint may send give the same user. */
  lemma MeShapes(u: User, others: map<string, Json<User>>)
    ensures MeUser(Rec(u)) == Rec(u)
    ensures MeUser(Obj(others["user" := Rec(u)])) == Rec(u)
  {
  }

  /** The provider's state. `token` is the `localStorage` entry "token"
      (None when absent); `user` is null when nobody is logged in;
      `requests` lists the API calls the store has issued. */
  class AuthSession {
    var token: Option<string>
    var user: Json<User>
    var loading: bool
    var requests: seq<Request>

    /** A user is logged in when `user` is truthy. */
    predicate LoggedIn()
      reads this
    {
      Truthy(user)
    }

    /** The first render: no user yet, still loading, with whatever token
        the durable storage holds. */
    constructor (stored: Option<string>)
      ensures token == stored && user == Null && loading && requests == []
      ensures !LoggedIn()
    {
      token := stored;
      user := Null;
      loading := true;
      requests := [];
    }

    /** `fetchMe`: validate the session. On success the user comes from the
        body; on failure the token is discarded and the user cleared.
        Loading ends in every outcome. */
    method FetchMe(me: Outcome<Json<User>>)
      modifies this
      ensures requests == old(requests) + [Request(GET, AuthMe, NoBody)]
      ensures me.Resolved? ==> user == MeUser(me.value) && token == old(token)
      ensures me.Rejected? ==> user == Null && token == None
      ensures !loading
    {
      requests := requests + [Request(GET, AuthMe, NoBody)];
      match me {
        case Resolved(data) =>
          user := MeUser(data);
        case Rejected =>
          token := None;
          user := Null;
      }
      loading := false;
    }

    /** The mount effect. Outside a browser window it does nothing. With a
        token it validates the session; without one it makes no request and
        ends loading with no user. */
    method Init(hasWindow: bool, me: Outcome<Json<User>>)
      modifies this
      ensures !hasWindow ==> token == old(token) && user == old(user) && loading == old(loading) && requests == old(requests)
      ensures hasWindow && !TokenTruthy(old(token)) ==>
        token == old(token) && user == old(user) && !loading && requests == old(requests)
      ensures hasWindow && TokenTruthy(old(token)) ==>
        && requests == old(requests) + [Request(GET, AuthMe, NoBody)]
        && (me.Resolved? ==> user == MeUser(me.value) && token == old(token))
        && (me.Rejected? ==> user == Null && token == None)
        && !loading
    {
      if !hasWindow {
        return;
      }
      if TokenTruthy(token) {
        FetchMe(me);
      } else {
        loading := false;
      }
    }

    /** `login`: on success the returned token is stored and the returned
        user set; a failed request rejects before either is touched. */
    method Login(email: string, password: string, res: Outcome<Credentials>) returns (ok: bool)
      modifies this
      ensures requests == old(requests) + [Request(POST, AuthLogin, LoginBody(email, password))]
      ensures ok <==> res.Resolved?
      ensures res.Resolved? ==> token == Some(res.value.token) && user == Rec(res.value.user)
      ensures res.Rejected? ==> token == old(token) && user == old(user)
      ensures loading == old(loading)
    {
      requests := requests + [Request(POST, AuthLogin, LoginBody(email, password))];
      match res
      case Resolved(c) =>
        token := Some(c.token);
        user := Rec(c.user);
        ok := true;
      case Rejected =>
        ok := false;
    }

    /** `signup`: the same discipline as `login`, on the signup endpoint. */
    method Signup(name: string, email: string, password: string, res: Outcome<Credentials>) returns (ok: bool)
      modifies this
      ensures requests == old(requests) + [Request(POST, AuthSignup, SignupBody(name, email, password))]
      ensures ok <==> res.Resolved?
      ensures res.Resolved? ==> token == Some(res.value.token) && user == Rec(res.value.user)
      ensures res.Rejected? ==> token == old(token) && user == old(user)
      ensures loading == old(loading)
    {
      requests := requests + [Request(POST, AuthSignup, SignupBody(name, email, password))];
      match res
      case Resolved(c) =>
        token := Some(c.token);
        user := Rec(c.user);
        ok := true;
      case Rejected =>
        ok := false;
    }

    /** `logout`: token and user are cleared; no request is made. */
    method Logout()
      modifies this
      ensures token == None && user == Null && !LoggedIn()
      ensures requests == old(requests) && loading == old(loading)
    {
      token := None;
      user := Null;
    }
  }
}
