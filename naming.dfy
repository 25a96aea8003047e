/**
  The naming convention: `capFirstLetter` and the three keys derived from an
  object name, `get<Name>`, `update<Name>` and `set<Name>`.
 */
module Naming {

  predicate IsAsciiLower(c: char) {
    'a' <= c <= 'z'
  }

  /** `String.prototype.toUpperCase` on one character, restricted to ASCII. */
  function ToUpperAscii(c: char): (u: char)
    ensures !IsAsciiLower(u)
    ensures IsAsciiLower(c) ==> u as int == c as int - 32
    ensures !IsAsciiLower(c) ==> u == c
  {
    if IsAsciiLower(c) then (c as int - 32) as char else c
  }

  /** Upper-cases the first character of `name` and keeps the rest. */
  function CapFirstLetter(name: string): (r: string)
    ensures |r| == |name|
    ensures name == "" ==> r == ""
    ensures forall i :: 0 < i < |name| ==> r[i] == name[i]
    ensures name != "" ==> r[0] == ToUpperAscii(name[0]) && !IsAsciiLower(r[0])
  {
    if name == "" then "" else [ToUpperAscii(name[0])] + name[1..]
  }

  /** Capitalising twice is the same as capitalising once. */
  lemma CapIdempotent(name: string)
    ensures CapFirstLetter(CapFirstLetter(name)) == CapFirstLetter(name)
  {
  }

  /** A name is its own capitalisation exactly when it does not start with a lower-case letter. */
  lemma CapFixedIff(name: string)
    ensures CapFirstLetter(name) == name <==> name == "" || !IsAsciiLower(name[0])
  {
  }

  /**
    Two names capitalise alike exactly when they have the same tail and
    their first characters upper-case alike ("user" and "User" do).
   */
  lemma CapEqualIff(a: string, b: string)
    ensures CapFirstLetter(a) == CapFirstLetter(b) <==>
            (a == "" && b == "") ||
            (a != "" && b != "" && ToUpperAscii(a[0]) == ToUpperAscii(b[0]) && a[1..] == b[1..])
  {
  }

  /** The three roles that have a convention-derived key. */
  datatype Role = Getter | Action | Mutation

  function Prefix(role: Role): string {
    match role
    case Getter => "get"
    case Action => "update"
    case Mutation => "set"
  }

  /** The key under which the default closure of `role` for `name` is registered. */
  function ConventionKey(role: Role, name: string): (k: string)
  {
    Prefix(role) + CapFirstLetter(name)
  }

  /**
    Keys of different roles never coincide, and two keys of one role
    coincide exactly when the names capitalise alike.
   */
  lemma ConventionKeyEqualIff(r1: Role, a: string, r2: Role, b: string)
    ensures ConventionKey(r1, a) == ConventionKey(r2, b) <==>
            r1 == r2 && CapFirstLetter(a) == CapFirstLetter(b)
  {
    var ka, kb := ConventionKey(r1, a), ConventionKey(r2, b);
    if ka == kb {
      assert ka[0] == Prefix(r1)[0] && kb[0] == Prefix(r2)[0];
      assert r1 == r2;
      var n := |Prefix(r1)|;
      assert ka[n..] == CapFirstLetter(a);
      assert kb[n..] == CapFirstLetter(b);
    }
  }

  /**
    Distinct object names can share every derived key: "user" and "User"
    both derive `getUser`, `updateUser` and `setUser`.
   */
  lemma FirstLetterCaseCollides(role: Role)
    ensures "user" != "User"
    ensures ConventionKey(role, "user") == ConventionKey(role, "User")
  {
  }
}
