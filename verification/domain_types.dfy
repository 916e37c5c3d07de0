/**
 * The closed set of domain types, the icon each is drawn with, and the
 * particles a new domain of each type starts with.
 */
module DomainTypes {
  import opened Wrappers

  datatype DomainType = Trust | Knowledge | Tools | Exchange

  /** The icons the screen draws; Globe is the fallback for an unknown type. */
  datatype Icon = Lock | Book | Wrench | DollarSign | Globe

  /** The type table in the order the screen lists it. */
  const AllTypes: seq<DomainType> := [Trust, Knowledge, Tools, Exchange]

  /** The name shown in the type picker and written into descriptions. */
  function Name(t: DomainType): string {
    match t
    case Trust => "Trust"
    case Knowledge => "Knowledge"
    case Tools => "Tools"
    case Exchange => "Exchange"
  }

  function IconOf(t: DomainType): Icon {
    match t
    case Trust => Lock
    case Knowledge => Book
    case Tools => Wrench
    case Exchange => DollarSign
  }

  /** The particle names a domain of type `t` is created with, in order. */
  function DefaultParticles(t: DomainType): seq<string> {
    match t
    case Trust => ["Security Protocol", "Identity Verification", "Trust Score"]
    case Knowledge => ["Learning Path", "Webinar", "Information Sharing"]
    case Tools => ["Task Management", "Timeline", "Resource Allocation"]
    case Exchange => ["Payment Processing", "Service Listing", "Reviews"]
  }

  /** No two types share a name, so a name identifies its type. */
  lemma NameInjective(a: DomainType, b: DomainType)
    ensures Name(a) == Name(b) ==> a == b
  {
  }

  /** Every type name is a single word: it contains no space. */
  lemma NameHasNoSpace(t: DomainType)
    ensures ' ' !in Name(t)
  {
    var n := Name(t);
    assert forall i :: 0 <= i < |n| ==> n[i] != ' ';
  }

  /** Each type's default particle list names every particle once. */
  lemma DefaultParticlesDistinct(t: DomainType)
    ensures |DefaultParticles(t)| == 3
    ensures forall i, j :: 0 <= i < j < 3 ==> DefaultParticles(t)[i] != DefaultParticles(t)[j]
  {
    var ps := DefaultParticles(t);
    assert ps[0][0] != ps[1][0] || |ps[0]| != |ps[1]|;
    assert ps[0][0] != ps[2][0] || |ps[0]| != |ps[2]|;
    assert ps[1][0] != ps[2][0] || |ps[1]| != |ps[2]|;
  }

  /** Each type has three distinct default particle names. */
  lemma DefaultParticleSetSize(t: DomainType)
    ensures |set n | n in DefaultParticles(t)| == 3
  {
    var ps := DefaultParticles(t);
    DefaultParticlesDistinct(t);
    assert (set n | n in ps) == {ps[0], ps[1], ps[2]};
  }

  /** The first entry of `types` whose name is `name`, as `Array.prototype.find`. */
  function FindIn(types: seq<DomainType>, name: string): (r: Option<DomainType>)
    ensures r.Some? ==> r.value in types && Name(r.value) == name
    ensures r.None? ==> forall t :: t in types ==> Name(t) != name
  {
    if types == [] then None
    else if Name(types[0]) == name then Some(types[0])
    else FindIn(types[1..], name)
  }

  /** The type table lists every type. */
  lemma AllTypesComplete()
    ensures forall t: DomainType :: t in AllTypes
  {
    forall t: DomainType ensures t in AllTypes {
      match t
      case Trust => assert AllTypes[0] == t;
      case Knowledge => assert AllTypes[1] == t;
      case Tools => assert AllTypes[2] == t;
      case Exchange => assert AllTypes[3] == t;
    }
  }

  /** The type whose name is exactly `name`, if any. */
  function FindType(name: string): (r: Option<DomainType>)
    ensures r.Some? ==> Name(r.value) == name
    ensures r.None? ==> forall t: DomainType :: Name(t) != name
  {
    var r := FindIn(AllTypes, name);
    AllTypesComplete();
    r
  }

  /** Looking a type up by its own name finds that type. */
  lemma FindTypeName(t: DomainType)
    ensures FindType(Name(t)) == Some(t)
  {
    var r := FindType(Name(t));
    NameInjective(r.value, t);
  }
}
