/**
 * The type registry (constants/config.hxx): a map from a type's hash to its
 * size in bytes, its C++ name and the array name used in generated code.
 * The registry is a value here; registration is the one write to it.
 */
module Config {
  /** A type's `typeid(T).hash_code()`: an opaque number. */
  type TypeId = int

  /** `TypeInfo::size` defaults to -1, which wraps to the largest `size_t`. */
  const SizeSentinel: nat := 0xFFFF_FFFF_FFFF_FFFF

  datatype TypeInfo = TypeInfo(size: nat, name: string, codename: string)

  const DefaultTypeInfo := TypeInfo(SizeSentinel, "", "")

  type Registry = map<TypeId, TypeInfo>

  /** A lookup that may fail the way the source throws `std::runtime_error`. */
  datatype Result<T> = Ok(value: T) | Err(message: string)
  {
    predicate IsOk() { Ok? }
  }

  /** `registry[hash] = info`: a later registration of the same hash replaces the earlier one. */
  function Register(reg: Registry, hash: TypeId, info: TypeInfo): (r: Registry)
    ensures hash in r && r[hash] == info
    ensures r.Keys == reg.Keys + {hash}
    ensures forall h :: h in reg && h != hash ==> h in r && r[h] == reg[h]
  {
    reg[hash := info]
  }

  /** `type_size`: the registered size, or the error for an unknown hash. */
  function TypeSize(reg: Registry, hash: TypeId): (r: Result<nat>)
    ensures r.Ok? <==> hash in reg
  {
    if hash in reg then Ok(reg[hash].size) else Err("type_size: unknown type hash")
  }

  /** `type_name`. */
  function TypeName(reg: Registry, hash: TypeId): (r: Result<string>)
    ensures r.Ok? <==> hash in reg
  {
    if hash in reg then Ok(reg[hash].name) else Err("type_name: unknown type hash")
  }

  /** `type_codename`. */
  function TypeCodename(reg: Registry, hash: TypeId): (r: Result<string>)
    ensures r.Ok? <==> hash in reg
  {
    if hash in reg then Ok(reg[hash].codename) else Err("type_codename: unknown type hash")
  }

  /** Looking up a hash just registered gives back what was registered, and other hashes answer as before. */
  lemma LookupAfterRegister(reg: Registry, hash: TypeId, info: TypeInfo, other: TypeId)
    ensures TypeSize(Register(reg, hash, info), hash) == Ok(info.size)
    ensures TypeName(Register(reg, hash, info), hash) == Ok(info.name)
    ensures TypeCodename(Register(reg, hash, info), hash) == Ok(info.codename)
    ensures other != hash ==>
      TypeSize(Register(reg, hash, info), other) == TypeSize(reg, other) &&
      TypeName(Register(reg, hash, info), other) == TypeName(reg, other) &&
      TypeCodename(Register(reg, hash, info), other) == TypeCodename(reg, other)
  {
  }

  /** The three lookups fail together: each fails exactly on the hashes nobody registered. */
  lemma LookupsAgree(reg: Registry, hash: TypeId)
    ensures TypeSize(reg, hash).Ok? == TypeName(reg, hash).Ok? == TypeCodename(reg, hash).Ok?
    ensures TypeSize(reg, hash).Err? ==> TypeSize(reg, hash) == Err("type_size: unknown type hash")
  {
  }

  /** A default-constructed entry reports the sentinel size, which no scalar type has. */
  lemma DefaultEntrySize(reg: Registry, hash: TypeId)
    ensures TypeSize(Register(reg, hash, DefaultTypeInfo), hash) == Ok(SizeSentinel)
    ensures SizeSentinel + 1 == 0x1_0000_0000_0000_0000
  {
  }

  // The hashes of the six scalar types the program registers at start-up.
  const BoolType: TypeId := 1
  const ByteType: TypeId := 2
  const IntType: TypeId := 3
  const CharType: TypeId := 4
  const RealType: TypeId := 5
  const TimeType: TypeId := 6

  /** The scalar part of `register_all_types` with the usual 64-bit sizes. */
  function ScalarRegistry(): (reg: Registry)
    ensures reg.Keys == {BoolType, ByteType, IntType, CharType, RealType, TimeType}
    ensures forall h :: h in reg ==> 0 < reg[h].size <= 8
  {
    var r0: Registry := map[];
    var r1 := Register(r0, BoolType, TypeInfo(1, "bool", "bools"));
    var r2 := Register(r1, ByteType, TypeInfo(1, "uint8_t", "bytes"));
    var r3 := Register(r2, IntType, TypeInfo(4, "int", "ints"));
    var r4 := Register(r3, CharType, TypeInfo(1, "char", "chars"));
    var r5 := Register(r4, RealType, TypeInfo(8, "double", "reals"));
    Register(r5, TimeType, TypeInfo(8, "long long", "times"))
  }
}
