/**
 * The request validators of src/modules/user/models/create-user.dto.ts:
 * a single `CreateUserDto` and a `CreateBulkUserDto` holding an array of them.
 */
module CreateUser {
  import opened JsValue
  import opened Constraints

  /** `@IsString()`. */
  predicate IsString(v: Value) {
    v.Str?
  }

  /** `@IsBoolean()`: `true` or `false`, nothing converted. */
  predicate IsBoolean(v: Value) {
    v.Bool?
  }

  /** `@IsNotEmpty()`: anything but `''`, `null` and `undefined`; `false` and `0` are not empty. */
  predicate IsNotEmpty(v: Value) {
    v != Str("") && v != Null && v != Undefined
  }

  /** `false`, `0`, `[]` and `{}` are not empty; `''`, `null` and `undefined` are. */
  lemma EmptyValues()
    ensures IsNotEmpty(Bool(false)) && IsNotEmpty(Value.Num(0)) && IsNotEmpty(Arr([])) && IsNotEmpty(Obj(map[]))
    ensures !IsNotEmpty(Str("")) && !IsNotEmpty(Null) && !IsNotEmpty(Undefined)
  {
  }

  /** A boolean is never empty; a string is non-empty exactly when it has a character. */
  lemma FieldRules(v: Value)
    ensures IsBoolean(v) ==> IsNotEmpty(v)
    ensures IsString(v) && IsNotEmpty(v) <==> v.Str? && |v.s| > 0
    ensures IsString(v) || IsBoolean(v) ==> v != Null && v != Undefined
  {
  }

  /** The decorators of `CreateUserDto`, evaluated on the fields of a request body. */
  function Schema(fields: map<string, Value>): seq<Constraint> {
    var firstName := Field(fields, "firstName");
    var lastName := Field(fields, "lastName");
    var isActive := Field(fields, "isActive");
    [ Constraint("firstName", "isString", IsString(firstName)),
      Constraint("firstName", "isNotEmpty", IsNotEmpty(firstName)),
      Constraint("lastName", "isString", IsString(lastName)),
      Constraint("lastName", "isNotEmpty", IsNotEmpty(lastName)),
      Constraint("isActive", "isBoolean", IsBoolean(isActive)),
      Constraint("isActive", "isNotEmpty", IsNotEmpty(isActive)) ]
  }

  /** A non-empty string field. */
  predicate NonEmptyString(fields: map<string, Value>, key: string) {
    key in fields && fields[key].Str? && fields[key].s != ""
  }

  /** A valid `CreateUserDto`: an object whose every constraint holds. */
  predicate ValidCreateUser(v: Value) {
    v.Obj? && AllHold(Schema(v.fields))
  }

  /**
   * A body is a valid `CreateUserDto` exactly when it is an object whose
   * names are non-empty strings and whose `isActive` is a boolean, `false`
   * included. Other fields do not matter.
   */
  lemma ValidCreateUserIff(v: Value)
    ensures ValidCreateUser(v) <==>
      v.Obj? && NonEmptyString(v.fields, "firstName") && NonEmptyString(v.fields, "lastName")
      && "isActive" in v.fields && v.fields["isActive"].Bool?
  {
    if v.Obj? {
      var cs := Schema(v.fields);
      assert AllHold(cs) <==> cs[0].holds && cs[1].holds && cs[2].holds && cs[3].holds && cs[4].holds && cs[5].holds;
    }
  }

  /** A boolean is never empty: `@IsNotEmpty()` on `isActive` adds nothing to `@IsBoolean()`. */
  lemma BooleanNeverEmpty(fields: map<string, Value>)
    ensures Schema(fields)[4].holds ==> Schema(fields)[5].holds
  {
  }

  /**
   * One element under `@ValidateNested({ each: true })`: an object is
   * validated as a `CreateUserDto`; an array is walked into, so it is valid
   * when each of its elements is (at any depth); any other value is rejected.
   */
  predicate ValidElement(v: Value)
    decreases v
  {
    match v
    case Obj(fields) => AllHold(Schema(fields))
    case Arr(items) => forall i :: 0 <= i < |items| ==> ValidElement(items[i])
    case _ => false
  }

  /** An object element is valid exactly when it is a valid user; a primitive element never is. */
  lemma ElementCases(v: Value)
    ensures v.Obj? ==> (ValidElement(v) <==> ValidCreateUser(v))
    ensures !v.Obj? && !v.Arr? ==> !ValidElement(v)
  {
  }

  /** `@ValidateNested({ each: true })` over an array: every element is valid. */
  predicate AllValid(users: seq<Value>)
  {
    if users == [] then true
    else ValidElement(users[0]) && AllValid(users[1..])
  }

  lemma {:induction false} AllValidIff(users: seq<Value>)
    ensures AllValid(users) <==> forall i :: 0 <= i < |users| ==> ValidElement(users[i])
    decreases |users|
  {
    if users != [] {
      AllValidIff(users[1..]);
      assert forall i :: 1 <= i < |users| ==> users[i] == users[1..][i - 1];
    }
  }

  /** An array nested in `users` is valid exactly when it would be valid as `users` itself. */
  lemma NestedArrayIsBatch(items: seq<Value>)
    ensures ValidElement(Arr(items)) <==> AllValid(items)
  {
    AllValidIff(items);
  }

  /** A valid `CreateBulkUserDto`: `users` is an array (`@IsArray()`) of valid elements. */
  predicate ValidBulk(v: Value) {
    v.Obj? && Field(v.fields, "users").Arr? && AllValid(Field(v.fields, "users").items)
  }

  /** A bulk request is valid exactly when `users` is an array and each of its elements is valid. */
  lemma ValidBulkIff(v: Value)
    ensures ValidBulk(v) <==>
      v.Obj? && "users" in v.fields && v.fields["users"].Arr?
      && forall i :: 0 <= i < |v.fields["users"].items| ==> ValidElement(v.fields["users"].items[i])
  {
    if v.Obj? && "users" in v.fields && v.fields["users"].Arr? {
      AllValidIff(v.fields["users"].items);
    }
  }

  /** Arrays inside `users` are walked into: `[[]]` and `[[u]]` are valid for a valid user `u`. */
  lemma NestedUsersAccepted(u: Value)
    requires ValidCreateUser(u)
    ensures ValidBulk(Obj(map["users" := Arr([Arr([])])]))
    ensures ValidBulk(Obj(map["users" := Arr([Arr([u])])]))
  {
    AllValidIff([Arr([])]);
    AllValidIff([Arr([u])]);
  }

  /** Two valid batches of users concatenate to a valid batch, and only valid batches do. */
  lemma {:induction false} AllValidAppend(a: seq<Value>, b: seq<Value>)
    ensures AllValid(a + b) <==> AllValid(a) && AllValid(b)
    decreases |a|
  {
    if a == [] {
      assert a + b == b;
    } else {
      assert (a + b)[1..] == a[1..] + b;
      AllValidAppend(a[1..], b);
    }
  }

  /** An empty `users` array is a valid bulk request. */
  lemma EmptyBulkValid(fields: map<string, Value>)
    requires "users" in fields && fields["users"] == Arr([])
    ensures ValidBulk(Obj(fields))
  {
  }
}
