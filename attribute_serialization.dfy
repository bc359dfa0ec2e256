/**
 * The attribute factory registry: a table from a type tag to a zero-argument
 * constructor, used to bring back the right attribute variant from a JSON
 * record before that variant fills its own fields from the record.
 *
 * Attribute variants are open: the registry never names one. A variant is
 * represented by what the registry can observe of it: the class name of the
 * object its constructor builds, the state of a default-built object, and the
 * variant's `fillFromJson` hook, which updates that state from a record or
 * throws.
 */
module AttributeSerialization {
  import opened Wrappers
  import Json

  /** An attribute object: its dynamic class and its state. */
  datatype Instance<P> = Instance(className: string, payload: P)

  /**
   * A registered constructor: `construct()` builds `Instance(className, defaults)`;
   * `fill` is that class's `fillFromJson` hook.
   */
  datatype Ctor<!P> = Ctor(className: string, defaults: P, fill: (P, Json.Value) -> Result<P, Json.Exception>)

  /** The registry's table; `None` is a registered null function pointer. */
  type FactoryMap<!P> = map<string, Option<Ctor<P>>>

  /** How `create` fails: four `std::domain_error`s and one pass-through. */
  datatype CreateError =
    | TypeErrorReadingType(what: string, record: Json.Value)  // the tag could not be read as a string
    | ParserNotFound(tag: string)                             // "Failed to find parser function for type: "
    | InvalidParser(tag: string)                              // "invalid parser function for type: "
    | TypeErrorConverting(what: string, record: Json.Value)   // the fill hook raised a type error
    | Propagated(exception: Json.Exception)                   // any other exception, not caught by create
  {
    /** Whether `create` rethrew this failure as a `std::domain_error`. */
    predicate IsDomainError() { !Propagated? }
  }

  /** `record.at(typeKey).get<std::string>()`: the record's type tag. */
  function ReadType(typeKey: string, record: Json.Value): Result<string, Json.Exception> {
    var field :- Json.At(record, typeKey);
    Json.GetString(field)
  }

  /** The record carries the string `tag` under `typeKey`. */
  predicate HasTag(typeKey: string, record: Json.Value, tag: string) {
    record.Object? && typeKey in record.fields && record.fields[typeKey] == Json.String(tag)
  }

  /** The record's tag field exists but cannot be read as a string, or the record is no object. */
  predicate MalformedTag(typeKey: string, record: Json.Value) {
    !record.Object? || (typeKey in record.fields && !record.fields[typeKey].String?)
  }

  /**
   * `AttributeFactory<T>::create(record)` against the table `table`: read the
   * tag, look it up, reject an unknown tag, then a null constructor, then build
   * the default object and let it fill itself from the whole record.
   */
  function Create<P>(table: FactoryMap<P>, typeKey: string, record: Json.Value): (r: Result<Instance<P>, CreateError>)
    ensures r.Success? ==>
      && ReadType(typeKey, record).Success?
      && var tag := ReadType(typeKey, record).value;
      && tag in table && table[tag].Some?
      && r.value.className == table[tag].value.className
      && table[tag].value.fill(table[tag].value.defaults, record) == Success(r.value.payload)
    ensures MalformedTag(typeKey, record) ==> r.Failure? && r.error.TypeErrorReadingType? && r.error.record == record
    ensures record.Object? && typeKey !in record.fields ==>
      r.Failure? && r.error.Propagated? && r.error.exception.OutOfRange?
  {
    match ReadType(typeKey, record)
    case Failure(e) =>
      if e.TypeError? then Failure(TypeErrorReadingType(e.what, record)) else Failure(Propagated(e))
    case Success(tag) =>
      if tag !in table then Failure(ParserNotFound(tag))
      else match table[tag]
        case None => Failure(InvalidParser(tag))
        case Some(ctor) =>
          match ctor.fill(ctor.defaults, record)
          case Success(payload) => Success(Instance(ctor.className, payload))
          case Failure(e) =>
            if e.TypeError? then Failure(TypeErrorConverting(e.what, record)) else Failure(Propagated(e))
  }

  /** A record that is not an object is a domain error naming the record, whatever the table holds. */
  lemma CreateNotAnObject<P>(table: FactoryMap<P>, typeKey: string, record: Json.Value)
    requires !record.Object?
    ensures Create(table, typeKey, record) ==
      Failure(TypeErrorReadingType("[json.exception.type_error.304] cannot use at() with " + Json.TypeName(record), record))
    ensures Create(table, typeKey, record).error.IsDomainError()
  {
  }

  /** A tag field that is not a string is a domain error naming the record, whatever the table holds. */
  lemma CreateTagNotAString<P>(table: FactoryMap<P>, typeKey: string, fields: map<string, Json.Value>)
    requires typeKey in fields && !fields[typeKey].String?
    ensures Create(table, typeKey, Json.Object(fields)) ==
      Failure(TypeErrorReadingType("[json.exception.type_error.302] type must be string, but is " + Json.TypeName(fields[typeKey]), Json.Object(fields)))
    ensures Create(table, typeKey, Json.Object(fields)).error.IsDomainError()
  {
  }

  /** An object record without the tag field escapes as the library's out_of_range, not as a domain error. */
  lemma CreateMissingTypeKey<P>(table: FactoryMap<P>, typeKey: string, fields: map<string, Json.Value>)
    requires typeKey !in fields
    ensures Create(table, typeKey, Json.Object(fields)) == Failure(Propagated(Json.OutOfRange("[json.exception.out_of_range.403] key '" + typeKey + "' not found")))
    ensures !Create(table, typeKey, Json.Object(fields)).error.IsDomainError()
  {
  }

  /** An unregistered tag fails with "Failed to find parser function", whatever else the table holds. */
  lemma CreateUnregistered<P>(table: FactoryMap<P>, typeKey: string, record: Json.Value, tag: string)
    requires HasTag(typeKey, record, tag) && tag !in table
    ensures Create(table, typeKey, record) == Failure(ParserNotFound(tag))
  {
  }

  /** A tag registered with a null constructor fails with "invalid parser function". */
  lemma CreateNullConstructor<P>(table: FactoryMap<P>, typeKey: string, record: Json.Value, tag: string)
    requires HasTag(typeKey, record, tag) && tag in table && table[tag].None?
    ensures Create(table, typeKey, record) == Failure(InvalidParser(tag))
  {
  }

  /**
   * With a real constructor, the outcome is the fill hook's: its result in the
   * constructor's class, a type error rethrown as a domain error naming the
   * record, or any other exception unchanged.
   */
  lemma CreateFill<P>(table: FactoryMap<P>, typeKey: string, record: Json.Value, tag: string)
    requires HasTag(typeKey, record, tag) && tag in table && table[tag].Some?
    ensures var c := table[tag].value;
      match c.fill(c.defaults, record)
      case Success(p) => Create(table, typeKey, record) == Success(Instance(c.className, p))
      case Failure(e) =>
        Create(table, typeKey, record) ==
          (if e.TypeError? then Failure(TypeErrorConverting(e.what, record)) else Failure(Propagated(e)))
  {
  }

  /**
   * The checks run in a fixed order: a malformed tag wins over everything, an
   * unknown tag over a null constructor, and the fill hook is reached only when
   * all three checks pass.
   */
  lemma CreateCheckOrder<P>(table: FactoryMap<P>, typeKey: string, record: Json.Value)
    ensures Create(table, typeKey, record).Failure? && Create(table, typeKey, record).error.ParserNotFound? ==>
      MalformedTag(typeKey, record) == false && HasTag(typeKey, record, Create(table, typeKey, record).error.tag)
      && Create(table, typeKey, record).error.tag !in table
    ensures Create(table, typeKey, record).Failure? && Create(table, typeKey, record).error.InvalidParser? ==>
      HasTag(typeKey, record, Create(table, typeKey, record).error.tag)
      && Create(table, typeKey, record).error.tag in table
      && table[Create(table, typeKey, record).error.tag].None?
    ensures Create(table, typeKey, record).Failure? && Create(table, typeKey, record).error.TypeErrorConverting? ==>
      exists tag :: HasTag(typeKey, record, tag) && tag in table && table[tag].Some?
  {
  }

  /** `create` consults only the table entry of the record's tag. */
  lemma CreateReadsOnlyTagEntry<P>(t1: FactoryMap<P>, t2: FactoryMap<P>, typeKey: string, record: Json.Value, tag: string)
    requires HasTag(typeKey, record, tag)
    requires (tag in t1) == (tag in t2)
    requires tag in t1 ==> t1[tag] == t2[tag]
    ensures Create(t1, typeKey, record) == Create(t2, typeKey, record)
  {
  }

  /** Registering `c` under `tag` makes `create` on a `tag` record run `c`. */
  lemma RegisterThenCreate<P>(table: FactoryMap<P>, typeKey: string, record: Json.Value, tag: string, c: Ctor<P>)
    requires HasTag(typeKey, record, tag)
    ensures c.fill(c.defaults, record).Success? ==>
      Create(table[tag := Some(c)], typeKey, record) == Success(Instance(c.className, c.fill(c.defaults, record).value))
    ensures c.fill(c.defaults, record).Failure? ==>
      var e := c.fill(c.defaults, record).error;
      Create(table[tag := Some(c)], typeKey, record) ==
        (if e.TypeError? then Failure(TypeErrorConverting(e.what, record)) else Failure(Propagated(e)))
  {
  }

  /**
   * The registration macros register `new classname()` under the stringified
   * class name, so a record tagged with that name comes back as that class.
   */
  lemma RegisteredClassRoundTrip<P>(table: FactoryMap<P>, typeKey: string, record: Json.Value, className: string,
                                    defaults: P, fill: (P, Json.Value) -> Result<P, Json.Exception>)
    requires HasTag(typeKey, record, className) && fill(defaults, record).Success?
    ensures Create(table[className := Some(Ctor(className, defaults, fill))], typeKey, record).Success?
    ensures Create(table[className := Some(Ctor(className, defaults, fill))], typeKey, record).value.className == className
  {
  }

  /** `AttributeFactory<T>`: one registry object per attribute family. */
  class AttributeFactory<P> {
    /** `T::TYPE_KEY`, the record field holding the type tag. */
    const typeKey: string
    var factoryMap: FactoryMap<P>

    constructor(typeKey: string)
      ensures this.typeKey == typeKey && factoryMap == map[]
    {
      this.typeKey := typeKey;
      factoryMap := map[];
    }

    /** Stores `ctor` under `tag`; an earlier entry for `tag` is silently replaced. */
    method RegisterConstructor(tag: string, ctor: Option<Ctor<P>>)
      modifies this
      ensures factoryMap == old(factoryMap)[tag := ctor]
      ensures tag in factoryMap && factoryMap[tag] == ctor
      ensures forall t :: t in old(factoryMap) && t != tag ==> t in factoryMap && factoryMap[t] == old(factoryMap)[t]
    {
      factoryMap := factoryMap[tag := ctor];
    }

    /** `REGISTER_ATTR_FACTORY` / `REGISTER_INFO_FACTORY`: register a class's default constructor under its name. */
    method RegisterClass(className: string, defaults: P, fill: (P, Json.Value) -> Result<P, Json.Exception>)
      modifies this
      ensures factoryMap == old(factoryMap)[className := Some(Ctor(className, defaults, fill))]
    {
      RegisterConstructor(className, Some(Ctor(className, defaults, fill)));
    }

    /**
     * `create(record)`, step by step with its early exits: a const member, so it
     * only reads the table. It is proved to agree with the specification `Create`,
     * so every lemma about `Create` holds of the registry as it stands.
     */
    function CreateInstance(record: Json.Value): (r: Result<Instance<P>, CreateError>)
      reads this
      ensures r == Create(factoryMap, typeKey, record)
    {
      // Read the tag; only a type error is rethrown as a domain error.
      var field := Json.At(record, typeKey);
      var attrType := if field.Failure? then Failure(field.error) else Json.GetString(field.value);
      if attrType.Failure? then
        if attrType.error.TypeError? then Failure(TypeErrorReadingType(attrType.error.what, record))
        else Failure(Propagated(attrType.error))
      // Look the tag up: an unknown tag first, then a null constructor.
      else if attrType.value !in factoryMap then Failure(ParserNotFound(attrType.value))
      else if factoryMap[attrType.value].None? then Failure(InvalidParser(attrType.value))
      // Build the default object and let it fill itself from the record.
      else
        var ctor := factoryMap[attrType.value].value;
        var filled := ctor.fill(ctor.defaults, record);
        if filled.Success? then Success(Instance(ctor.className, filled.value))
        else if filled.error.TypeError? then Failure(TypeErrorConverting(filled.error.what, record))
        else Failure(Propagated(filled.error))
    }
  }
}
