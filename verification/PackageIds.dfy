/**
 The byte string that derivePackageID hashes and a decoder that undoes it. SHA-256 is taken as
 injective, so a package ID stands for the preimage; the decoder shows that the preimage in turn
 stands for packager, project and ordered member list. The other modules therefore use the
 Identity itself as the package ID.
 */
module PackageIds {
  import opened Wrappers

  datatype Packager = IdentityPackager | MergePackager

  function PackagerName(packager: Packager): string {
    match packager
    case IdentityPackager => "identity"
    case MergePackager => "mergewarc"
  }

  function PackagerFromName(name: string): Option<Packager> {
    if name == "identity" then Some(IdentityPackager)
    else if name == "mergewarc" then Some(MergePackager)
    else None
  }

  /** What derivePackageID hashes of one member. */
  datatype MemberKey = MemberKey(objectId: string, checksum: string, size: int)

  datatype Identity = Identity(packager: Packager, project: string, members: seq<MemberKey>)

  const NUL := '\0'
  const VERSION := "canner-package-v1"

  ghost predicate NoNul(field: string) {
    NUL !in field
  }

  ghost predicate Hashable(id: Identity) {
    && NoNul(id.project)
    && forall i :: 0 <= i < |id.members| ==> NoNul(id.members[i].objectId) && NoNul(id.members[i].checksum)
  }

  // ---------- strconv.FormatInt(n, 10) and its inverse ----------

  function Digits(n: nat): (s: string)
    ensures |s| >= 1
    ensures forall c :: c in s ==> '0' <= c <= '9'
  {
    if n < 10 then [DigitChar(n)] else Digits(n / 10) + [DigitChar(n % 10)]
  }

  function DigitChar(d: nat): (c: char)
    requires d < 10
    ensures '0' <= c <= '9'
  {
    '0' + d as char
  }

  function ParseDigits(s: string): int {
    if s == [] then 0 else ParseDigits(s[..|s| - 1]) * 10 + (s[|s| - 1] as int - '0' as int)
  }

  lemma {:induction false} ParseDigitsOfDigits(n: nat)
    ensures ParseDigits(Digits(n)) == n
  {
    if n < 10 {
      assert Digits(n)[..0] == [];
    } else {
      ParseDigitsOfDigits(n / 10);
      assert Digits(n)[..|Digits(n)| - 1] == Digits(n / 10);
    }
  }

  function FormatInt(n: int): (s: string)
    ensures NUL !in s
  {
    if n < 0 then "-" + Digits(-n) else Digits(n)
  }

  function ParseInt(s: string): int {
    if s != [] && s[0] == '-' then -ParseDigits(s[1..]) else ParseDigits(s)
  }

  lemma ParseIntOfFormatInt(n: int)
    ensures ParseInt(FormatInt(n)) == n
  {
    if n < 0 {
      ParseDigitsOfDigits(-n);
      assert FormatInt(n)[1..] == Digits(-n);
    } else {
      ParseDigitsOfDigits(n);
      assert Digits(n)[0] in Digits(n);
    }
  }

  // ---------- The preimage ----------

  function Field(s: string): string {
    s + [NUL]
  }

  function EncodeMembers(members: seq<MemberKey>): string {
    if members == [] then []
    else
      Field(members[0].objectId) + (Field(members[0].checksum) + (Field(FormatInt(members[0].size))
      + EncodeMembers(members[1..])))
  }

  function Encode(id: Identity): string {
    Field(VERSION) + (Field(PackagerName(id.packager)) + (Field(id.project) + EncodeMembers(id.members)))
  }

  /** The layout, for a package of one member: six fields in this order, each ended by a NUL. */
  lemma EncodeOfOne(packager: Packager, project: string, m: MemberKey)
    ensures Encode(Identity(packager, project, [m]))
         == VERSION + [NUL] + PackagerName(packager) + [NUL] + project + [NUL]
            + m.objectId + [NUL] + m.checksum + [NUL] + FormatInt(m.size) + [NUL]
  {
    assert [m][1..] == [] && EncodeMembers([]) == [];
    var last := Field(FormatInt(m.size)) + EncodeMembers([]);
    assert last == FormatInt(m.size) + [NUL];
    EncodeFields(VERSION, PackagerName(packager), project, m.objectId, m.checksum, FormatInt(m.size));
  }

  lemma EncodeFields(a: string, b: string, c: string, d: string, e: string, f: string)
    ensures Field(a) + (Field(b) + (Field(c) + (Field(d) + (Field(e) + (f + [NUL])))))
         == a + [NUL] + b + [NUL] + c + [NUL] + d + [NUL] + e + [NUL] + f + [NUL]
  {
  }

  // ---------- The decoder ----------

  /** Index of the first NUL, or the length when there is none. */
  function FieldEnd(s: string): (n: nat)
    ensures n <= |s|
    ensures n < |s| ==> s[n] == NUL
  {
    if s == [] || s[0] == NUL then 0 else 1 + FieldEnd(s[1..])
  }

  /** Splits off the first NUL-terminated field. */
  function TakeField(s: string): (r: Option<(string, string)>)
    ensures r.Some? ==> |r.value.1| < |s|
  {
    var n := FieldEnd(s);
    if n < |s| then Some((s[..n], s[n + 1..])) else None
  }

  function DecodeMembers(s: string): Option<seq<MemberKey>>
    decreases |s|
  {
    if s == [] then Some([])
    else
      match TakeField(s)
      case None => None
      case Some((objectId, s1)) =>
        match TakeField(s1)
        case None => None
        case Some((checksum, s2)) =>
          match TakeField(s2)
          case None => None
          case Some((size, s3)) =>
            match DecodeMembers(s3)
            case None => None
            case Some(rest) => Some([MemberKey(objectId, checksum, ParseInt(size))] + rest)
  }

  function Decode(s: string): Option<Identity> {
    match TakeField(s)
    case None => None
    case Some((version, s1)) =>
      if version != VERSION then None
      else
        match TakeField(s1)
        case None => None
        case Some((packager, s2)) =>
          match TakeField(s2)
          case None => None
          case Some((project, s3)) =>
            match DecodeMembers(s3)
            case None => None
            case Some(members) =>
              match PackagerFromName(packager)
              case None => None
              case Some(p) => Some(Identity(p, project, members))
  }

  lemma {:induction false} FieldEndOfField(f: string, rest: string)
    requires NoNul(f)
    ensures FieldEnd(Field(f) + rest) == |f|
  {
    if f != [] {
      assert f[0] in f;
      assert NUL !in f[1..];
      FieldEndOfField(f[1..], rest);
      assert (Field(f) + rest)[1..] == Field(f[1..]) + rest;
    }
  }

  lemma TakeFieldOfField(f: string, rest: string)
    requires NoNul(f)
    ensures TakeField(Field(f) + rest) == Some((f, rest))
  {
    FieldEndOfField(f, rest);
    var s := Field(f) + rest;
    assert s[..|f|] == f && s[|f| + 1..] == rest;
  }

  lemma {:induction false} DecodeMembersOfEncode(members: seq<MemberKey>)
    requires forall i :: 0 <= i < |members| ==> NoNul(members[i].objectId) && NoNul(members[i].checksum)
    ensures DecodeMembers(EncodeMembers(members)) == Some(members)
  {
    if members != [] {
      var m := members[0];
      var s3 := EncodeMembers(members[1..]);
      var s2 := Field(FormatInt(m.size)) + s3;
      var s1 := Field(m.checksum) + s2;
      TakeFieldOfField(m.objectId, s1);
      TakeFieldOfField(m.checksum, s2);
      TakeFieldOfField(FormatInt(m.size), s3);
      ParseIntOfFormatInt(m.size);
      DecodeMembersOfEncode(members[1..]);
      assert EncodeMembers(members) == Field(m.objectId) + s1;
      assert [m] + members[1..] == members;
    }
  }

  lemma ConstantsHashable(packager: Packager)
    ensures NoNul(VERSION) && NoNul(PackagerName(packager))
    ensures PackagerFromName(PackagerName(packager)) == Some(packager)
  {
  }

  /** Decoding the preimage gives back packager, project and the ordered member list. */
  lemma DecodeOfEncode(id: Identity)
    requires Hashable(id)
    ensures Decode(Encode(id)) == Some(id)
  {
    var name := PackagerName(id.packager);
    var s3 := EncodeMembers(id.members);
    var s2 := Field(id.project) + s3;
    var s1 := Field(name) + s2;
    ConstantsHashable(id.packager);
    TakeFieldOfField(VERSION, s1);
    TakeFieldOfField(name, s2);
    TakeFieldOfField(id.project, s3);
    DecodeMembersOfEncode(id.members);
  }

  /** Equal preimages mean the same packager, project and ordered members. */
  lemma EncodeInjective(a: Identity, b: Identity)
    requires Hashable(a) && Hashable(b)
    ensures Encode(a) == Encode(b) <==> a == b
  {
    DecodeOfEncode(a);
    DecodeOfEncode(b);
  }

  /** The condition is needed: an object ID with NULs in it makes one member encode like two. */
  lemma EncodeAmbiguousWithNul()
    ensures exists a: Identity, b: Identity :: a != b && a.members != [] && b.members != [] && Encode(a) == Encode(b)
  {
    var last := MemberKey("u", "v", 8);
    var swallowing := MemberKey("x\0y\07\0u", "v", 8);
    var a := Identity(MergePackager, "p", [MemberKey("x", "y", 7), last]);
    var b := Identity(MergePackager, "p", [swallowing]);
    assert FormatInt(7) == "7" && EncodeMembers([]) == [];
    assert a.members[1..] == [last] && [last][1..] == [] && b.members[1..] == [];
    var tail := Field("v") + (Field(FormatInt(8)) + []);
    assert EncodeMembers(a.members) == Field("x") + (Field("y") + (Field("7") + (Field("u") + tail)));
    assert EncodeMembers(b.members) == Field("x\0y\07\0u") + tail;
    assert Field("x") + (Field("y") + (Field("7") + (Field("u") + tail))) == Field("x\0y\07\0u") + tail;
    assert a.members[0].objectId != b.members[0].objectId;
  }
}
