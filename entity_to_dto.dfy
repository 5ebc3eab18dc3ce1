/**
 * The entity-to-DTO interceptor (src/interceptors/entity-to-dto.interceptor.ts):
 * every value a handler returns is projected onto a DTO class, element by
 * element when it is an array.
 */
module EntityToDto {
  import opened JsValue

  /** A DTO class, as far as the projection sees it: the fields it marks `@Exclude()`. */
  datatype DtoClass = DtoClass(name: string, excluded: set<string>)

  /** `UserDto`: `isActive` is excluded, `id`, `firstName` and `lastName` pass through. */
  const UserDto := DtoClass("UserDto", {"isActive"})

  /**
   * `plainToInstance(dto, value, { excludeExtraneousValues: false })` on one
   * value: an object keeps every field the DTO does not exclude, with its
   * value; an array is projected element by element; anything else is
   * returned as it is. The fields of a nested object are not projected:
   * they have no DTO class of their own.
   */
  function Project(dto: DtoClass, v: Value): (r: Value)
    decreases v
    ensures v.Obj? ==> r.Obj? && r.fields.Keys == v.fields.Keys - dto.excluded
    ensures v.Obj? ==> forall k :: k in r.fields ==> r.fields[k] == v.fields[k]
    ensures v.Arr? ==> r.Arr? && |r.items| == |v.items|
    ensures v.Arr? ==> forall i :: 0 <= i < |v.items| ==> r.items[i] == Project(dto, v.items[i])
    ensures !v.Obj? && !v.Arr? ==> r == v
  {
    match v
    case Obj(fields) => Obj(fields - dto.excluded)
    case Arr(items) => Arr(seq(|items|, i requires 0 <= i < |items| => Project(dto, items[i])))
    case _ => v
  }

  /**
   * No excluded field is left where the projection reaches: on an object,
   * or on an object inside an array (at any depth of arrays).
   */
  predicate Stripped(excluded: set<string>, v: Value)
    decreases v
  {
    match v
    case Obj(fields) => fields.Keys !! excluded
    case Arr(items) => forall i :: 0 <= i < |items| ==> Stripped(excluded, items[i])
    case _ => true
  }

  /** `EntityToDtoInterceptor`: the DTO class is fixed at construction and used for every value. */
  datatype EntityToDtoInterceptor = EntityToDtoInterceptor(dto: DtoClass)
  {
    /** `items.map(item => plainToInstance(dto, item, …))`. */
    function ProjectAll(items: seq<Value>): (r: seq<Value>)
      ensures |r| == |items|
      ensures forall i :: 0 <= i < |items| ==> r[i] == Project(dto, items[i])
    {
      if items == [] then []
      else [Project(dto, items[0])] + ProjectAll(items[1..])
    }

    /** The value-level `map` of `intercept`: an array element-wise, anything else as one value. */
    function Intercept(data: Value): (r: Value)
      ensures data.Arr? ==> r.Arr? && |r.items| == |data.items|
      ensures data.Arr? ==> forall i :: 0 <= i < |data.items| ==> r.items[i] == Project(dto, data.items[i])
      ensures !data.Arr? ==> r == Project(dto, data)
    {
      if data.Arr? then Arr(ProjectAll(data.items)) else Project(dto, data)
    }
  }

  /** The projection leaves no excluded field on any object it reaches. */
  lemma {:induction false} ProjectStrips(dto: DtoClass, v: Value)
    decreases v
    ensures Stripped(dto.excluded, Project(dto, v))
  {
    match v
    case Arr(items) =>
      forall i | 0 <= i < |items| ensures Stripped(dto.excluded, Project(dto, items[i])) {
        ProjectStrips(dto, items[i]);
      }
    case _ =>
  }

  /**
   * The interceptor's own array branch does what `plainToInstance` already
   * does with an array: intercepting is projecting.
   */
  lemma InterceptIsProject(t: EntityToDtoInterceptor, data: Value)
    ensures t.Intercept(data) == Project(t.dto, data)
  {
    if data.Arr? {
      assert t.Intercept(data).items == Project(t.dto, data).items;
    }
  }

  /** No object the interceptor returns, alone or inside an array, carries an excluded field. */
  lemma ExcludedFieldsAbsent(t: EntityToDtoInterceptor, data: Value)
    ensures Stripped(t.dto.excluded, t.Intercept(data))
  {
    InterceptIsProject(t, data);
    ProjectStrips(t.dto, data);
  }

  /** A field that is not excluded keeps its value. */
  lemma OtherFieldsKept(dto: DtoClass, fields: map<string, Value>, k: string)
    requires k in fields && k !in dto.excluded
    ensures var r := Project(dto, Obj(fields)); k in r.fields && r.fields[k] == fields[k]
  {
  }

  /** Projecting twice is projecting once. */
  lemma {:induction false} ProjectIdempotent(dto: DtoClass, v: Value)
    decreases v
    ensures Project(dto, Project(dto, v)) == Project(dto, v)
  {
    var once := Project(dto, v);
    match v
    case Obj(_) =>
      assert Project(dto, once).fields == once.fields;
    case Arr(items) =>
      forall i | 0 <= i < |items| ensures Project(dto, once.items[i]) == once.items[i] {
        ProjectIdempotent(dto, items[i]);
      }
      assert Project(dto, once).items == once.items;
    case _ =>
  }

  /** Intercepting an already intercepted value again changes nothing. */
  lemma InterceptIdempotent(t: EntityToDtoInterceptor, data: Value)
    ensures t.Intercept(t.Intercept(data)) == t.Intercept(data)
  {
    InterceptIsProject(t, data);
    InterceptIsProject(t, t.Intercept(data));
    ProjectIdempotent(t.dto, data);
  }

  /** A DTO that excludes nothing projects every value onto itself. */
  lemma {:induction false} NothingExcludedKeepsValue(name: string, v: Value)
    decreases v
    ensures Project(DtoClass(name, {}), v) == v
  {
    var dto := DtoClass(name, {});
    match v
    case Obj(fields) =>
      assert fields - {} == fields;
    case Arr(items) =>
      forall i | 0 <= i < |items| ensures Project(dto, items[i]) == items[i] {
        NothingExcludedKeepsValue(name, items[i]);
      }
      assert Project(dto, v).items == items;
    case _ =>
  }

  /** A DTO that excludes nothing lets every value through unchanged. */
  lemma NothingExcludedIsIdentity(data: Value, name: string)
    ensures EntityToDtoInterceptor(DtoClass(name, {})).Intercept(data) == data
  {
    InterceptIsProject(EntityToDtoInterceptor(DtoClass(name, {})), data);
    NothingExcludedKeepsValue(name, data);
  }

  /** The array projection of a concatenation is the concatenation of the projections. */
  lemma {:induction false} ProjectAllAppend(t: EntityToDtoInterceptor, a: seq<Value>, b: seq<Value>)
    ensures t.ProjectAll(a + b) == t.ProjectAll(a) + t.ProjectAll(b)
  {
    if a == [] {
      assert a + b == b;
    } else {
      assert (a + b)[1..] == a[1..] + b;
      ProjectAllAppend(t, a[1..], b);
    }
  }

  /** The row shape of `UserEntity`. */
  datatype UserEntity = UserEntity(id: int, firstName: string, lastName: string, isActive: bool)

  /** A `UserEntity` as the plain object a repository returns. */
  function UserToPlain(u: UserEntity): Value {
    Obj(map["id" := Num(u.id), "firstName" := Str(u.firstName), "lastName" := Str(u.lastName),
            "isActive" := Bool(u.isActive)])
  }

  /** A user projected onto `UserDto` keeps exactly its id and names and loses `isActive`. */
  lemma UserProjection(u: UserEntity)
    ensures EntityToDtoInterceptor(UserDto).Intercept(UserToPlain(u))
      == Obj(map["id" := Num(u.id), "firstName" := Str(u.firstName), "lastName" := Str(u.lastName)])
  {
    var r := EntityToDtoInterceptor(UserDto).Intercept(UserToPlain(u));
    var expected := map["id" := Num(u.id), "firstName" := Str(u.firstName), "lastName" := Str(u.lastName)];
    assert r.fields.Keys == expected.Keys;
  }
}
