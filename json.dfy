/**
 * The codec port backed by dsl-json: a registration table keyed by class
 * name, guards on `serialize`/`deserialize`, and delegation to the JSON
 * runtime, which is given as a value of type `Encoder`.
 */
module Json {
  import opened Base

  /** A Java object as the JSON runtime sees it: its runtime class name and its fields. */
  datatype Obj = Obj(className: string, fields: map<string, FieldValue>)

  datatype FieldValue = IntField(i: int) | StringField(s: string) | NullField | ObjField(o: Obj)

  /**
   * One configured dsl-json instance: `write` renders an object (the text the
   * output stream holds afterwards) or throws, `read` parses bytes as the
   * named class or throws.
   */
  datatype Encoder = Encoder(write: Obj -> Result<string>, read: (string, Bytes) -> Result<Obj>)

  /**
   * The behaviour the library's tests rely on: whenever writing succeeds,
   * reading back the bytes of what was written, as the class that was
   * written, yields an equal object.
   */
  ghost predicate RoundTrips(e: Encoder, getBytes: string -> Bytes) {
    forall o: Obj :: e.write(o).Ok? ==> e.read(o.className, getBytes(e.write(o).value)) == Ok(o)
  }

  class DslJsonCodec {
    /** The dsl-json runtime every `register` call configures (same settings each time). */
    const runtime: Encoder
    /** The registration table: class name to its dsl-json instance. */
    var codec: map<string, Encoder>

    ghost predicate Valid()
      reads this
    {
      forall c :: c in codec ==> codec[c] == runtime
    }

    /** `new DslJsonCodec(p1, ..., pn)`, and the `Iterable` overload: registers every prototype. */
    constructor (prototypes: seq<string>, runtime: Encoder)
      ensures Valid() && this.runtime == runtime
      ensures codec.Keys == set p | p in prototypes
    {
      this.runtime := runtime;
      codec := map[];
      new;
      RegisterAll(prototypes);
    }

    /** `register(Class<T>)`: (re)binds the class name, leaving other names alone. */
    method Register(prototype: string)
      requires Valid()
      modifies this
      ensures Valid()
      ensures codec == old(codec)[prototype := runtime]
    {
      codec := codec[prototype := runtime];
    }

    /** `register(Class<?>...)` and `register(Iterable)`: one `Register` per prototype, in order. */
    method RegisterAll(prototypes: seq<string>)
      requires Valid()
      modifies this
      ensures Valid()
      ensures codec.Keys == old(codec.Keys) + set p | p in prototypes
      ensures forall c :: c in old(codec) && c !in prototypes ==> c in codec && codec[c] == old(codec)[c]
    {
      var i := 0;
      while i < |prototypes|
        invariant 0 <= i <= |prototypes|
        invariant Valid()
        invariant codec.Keys == old(codec.Keys) + set p | p in prototypes[..i]
        invariant forall c :: c in old(codec) && c !in prototypes[..i] ==> c in codec && codec[c] == old(codec)[c]
      {
        Register(prototypes[i]);
        assert prototypes[..i + 1] == prototypes[..i] + [prototypes[i]];
        i := i + 1;
      }
      assert prototypes[..i] == prototypes;
    }

    /** `serialize(input)`: rejects null and unregistered classes, then delegates; the runtime may itself throw. */
    function Serialize(input: Option<Obj>): (r: Result<string>)
      reads this
      ensures input.None? ==> r == Err(InvalidInput) && r.error.Message() == "Invalid input"
      ensures input.Some? && input.value.className !in codec ==>
                r == Err(NotRegistered(input.value.className))
                && r.error.Message() == "Must invoke `register` first for class: " + input.value.className
      ensures r.Ok? ==> input.Some? && input.value.className in codec
      ensures input.Some? && input.value.className in codec ==> r == codec[input.value.className].write(input.value)
    {
      match input
      case None => Err(InvalidInput)
      case Some(o) =>
        if o.className !in codec then Err(NotRegistered(o.className))
        else codec[o.className].write(o)
    }

    /** `deserialize(prototype, input)`: rejects a null array and an unregistered class, then delegates. */
    function Deserialize(prototype: string, input: Option<Bytes>): (r: Result<Obj>)
      reads this
      ensures input.None? ==> r == Err(InvalidInput) && r.error.Message() == "Invalid input"
      ensures input.Some? && prototype !in codec ==>
                r == Err(NotRegistered(prototype))
                && r.error.Message() == "Must invoke `register` first for class: " + prototype
      ensures input.Some? && prototype in codec ==> r == codec[prototype].read(prototype, input.value)
    {
      match input
      case None => Err(InvalidInput)
      case Some(b) =>
        if prototype !in codec then Err(NotRegistered(prototype))
        else codec[prototype].read(prototype, b)
    }

    /**
     * For a registered class, whenever serialising succeeds, deserialising the
     * bytes of the serialised form gives the object back.
     */
    lemma SerializeRoundTrip(o: Obj, getBytes: string -> Bytes)
      requires Valid() && RoundTrips(runtime, getBytes)
      requires o.className in codec
      ensures Serialize(Some(o)).Ok? <==> runtime.write(o).Ok?
      ensures Serialize(Some(o)).Ok? ==> Deserialize(o.className, Some(getBytes(Serialize(Some(o)).value))) == Ok(o)
    {
      assert codec[o.className] == runtime;
      if runtime.write(o).Ok? {
        assert runtime.read(o.className, getBytes(runtime.write(o).value)) == Ok(o);
      }
    }
  }
}
