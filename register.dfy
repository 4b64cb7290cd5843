/** The registration form: field edits, the two password checks made before
    anything is sent, the request body, and what the reply does to storage
    and to the page. */
module Registration {
  import opened Js
  import opened Browser

  const MismatchError: string := "Passwords do not match"
  const LengthError: string := "Password must be at least 8 characters long"
  const DefaultError: string := "Registration failed"

  /** The form's fields. */
  const FieldNames: set<string> := {"name", "email", "password", "confirmPassword"}

  /** The first check that fails, or none: equality is checked before
      length, and the length is counted in UTF-16 code units. */
  function Validate(password: string, confirmPassword: string): Option<string> {
    if password != confirmPassword then Some(MismatchError)
    else if Utf16Length(password) < 8 then Some(LengthError)
    else None
  }

  /** A request goes out exactly when the passwords agree and are at least
      8 units long; a mismatch is reported even for a short password. */
  lemma ValidateOrder(password: string, confirmPassword: string)
    ensures Validate(password, confirmPassword).None? <==> password == confirmPassword && Utf16Length(password) >= 8
    ensures password != confirmPassword ==> Validate(password, confirmPassword) == Some(MismatchError)
    ensures password == confirmPassword && Utf16Length(password) < 8 ==> Validate(password, confirmPassword) == Some(LengthError)
    ensures Validate("12345678", "12345678").None? && Validate("1234567", "1234567") == Some(LengthError)
  {
    assert Utf16Length("1234567") == 7 by {
      assert "1234567"[..6] == "123456";
      assert "123456"[..5] == "12345";
      assert "12345"[..4] == "1234";
      assert "1234"[..3] == "123";
      assert "123"[..2] == "12";
      assert "12"[..1] == "1";
      assert "1"[..0] == "";
    }
    assert "12345678"[..7] == "1234567";
  }

  /** The body sent to the register endpoint: name, e-mail and password,
      without the confirmation. */
  function RequestBody(form: map<string, string>): Json
    requires FieldNames <= form.Keys
  {
    Obj([("name", Str(form["name"])), ("email", Str(form["email"])), ("password", Str(form["password"]))])
  }

  lemma RequestBodyFields(form: map<string, string>)
    requires FieldNames <= form.Keys
    ensures Get(RequestBody(form), "name") == Str(form["name"])
    ensures Get(RequestBody(form), "email") == Str(form["email"])
    ensures Get(RequestBody(form), "password") == Str(form["password"])
    ensures Get(RequestBody(form), "confirmPassword") == Undefined
  {
    var e := RequestBody(form).entries;
    LookupFirst(e, "email", 1);
    LookupFirst(e, "password", 2);
    LookupMissing(e, "confirmPassword");
  }

  /** The register endpoint's answer: `Fault(message)` is a request or body
      read that threw, with its message; `Answer` carries the status and the
      parsed body. */
  datatype RegisterReply = Fault(message: string) | Answer(ok: bool, data: Json)

  class RegisterPage {
    var form: map<string, string>
    /** The error shown, as the value given to it. */
    var error: Json
    var loading: bool
    var navigation: Option<string>
    const storage: LocalStorage

    predicate Valid()
      reads this
    {
      FieldNames <= form.Keys
    }

    constructor(storage: LocalStorage)
      ensures Valid() && this.storage == storage
      ensures form == map["name" := "", "email" := "", "password" := "", "confirmPassword" := ""]
      ensures error == Str("") && !loading && navigation.None?
    {
      this.storage := storage;
      form := map["name" := "", "email" := "", "password" := "", "confirmPassword" := ""];
      error := Str("");
      loading := false;
      navigation := None;
    }

    /** `handleChange`: only the named field changes, and the error is
        cleared. */
    method Change(name: string, value: string)
      requires Valid()
      modifies this
      ensures Valid() && form == old(form)[name := value] && error == Str("")
      ensures loading == old(loading) && navigation == old(navigation)
    {
      form := form[name := value];
      error := Str("");
    }

    /** `handleSubmit`: returns the request it sends, if any; `reply` is the
        endpoint's answer to it, `crash` the message of the TypeError thrown
        when the body is `null`, and `stringify` is `JSON.stringify`. */
    method Submit(reply: RegisterReply, crash: string, stringify: Json -> string) returns (request: Option<Json>)
      requires Valid()
      requires reply.Answer? && reply.ok && !Nullish(reply.data) ==> ToText(Get(reply.data, "token")).Some?
      modifies this, storage
      ensures Valid() && form == old(form) && !loading
      ensures request.Some? <==> Validate(form["password"], form["confirmPassword"]).None?
      ensures request.Some? ==> request.value == RequestBody(form)
      ensures request.None? ==>
        && error == Str(Validate(form["password"], form["confirmPassword"]).value)
        && storage.items == old(storage.items) && navigation == old(navigation)
      ensures request.Some? && reply.Fault? ==>
        error == Str(reply.message) && storage.items == old(storage.items) && navigation == old(navigation)
      ensures request.Some? && reply.Answer? && Nullish(reply.data) ==>
        error == Str(crash) && storage.items == old(storage.items) && navigation == old(navigation)
      ensures request.Some? && reply.Answer? && !Nullish(reply.data) && !reply.ok ==>
        && error == Or(Get(reply.data, "error"), Str(DefaultError))
        && storage.items == old(storage.items) && navigation == old(navigation)
      ensures request.Some? && reply.Answer? && !Nullish(reply.data) && reply.ok ==>
        && error == Str("") && navigation == Some("/dashboard")
        && storage.items == old(storage.items)["token" := ToText(Get(reply.data, "token")).value]
                                              ["user" := stringify(Get(reply.data, "user"))]
    {
      loading := true;
      error := Str("");
      var failed := Validate(form["password"], form["confirmPassword"]);
      if failed.Some? {
        error := Str(failed.value);
        loading := false;
        return None;
      }
      request := Some(RequestBody(form));
      match reply {
        case Fault(message) =>
          error := Str(message);
        case Answer(ok, data) =>
          if Nullish(data) {
            error := Str(crash);
          } else if !ok {
            error := Or(Get(data, "error"), Str(DefaultError));
          } else {
            storage.SetItem("token", ToText(Get(data, "token")).value);
            storage.SetItem("user", stringify(Get(data, "user")));
            navigation := Some("/dashboard");
          }
      }
      loading := false;
    }
  }

  /** A successful reply without a token still stores one: the text
      `undefined`. */
  lemma MissingTokenStored(data: Json)
    requires data.Obj? && Get(data, "token") == Undefined
    ensures ToText(Get(data, "token")) == Some("undefined")
  {
  }
}
