/** The validating webhook for accounts. */
module Admission {
  import opened Naming
  import opened WorkspaceUrl

  /** Length in bytes of the UTF-8 encoding, which is what Go's len counts. */
  function Utf8Length(s: string): (n: nat)
    ensures n >= |s|
    ensures n == 0 <==> s == ""
  {
    if s == "" then 0
    else
      (if s[0] <= '\U{007F}' then 1 else if s[0] <= '\U{07FF}' then 2
       else if s[0] <= '\U{FFFF}' then 3 else 4) + Utf8Length(s[1..])
  }

  // ----- what Utf8Length counts -----

  /** One character in UTF-8, section 3 of RFC 3629. */
  function EncodeChar(c: char): (bytes: seq<int>)
    ensures 1 <= |bytes| <= 4 && forall i :: 0 <= i < |bytes| ==> 0 <= bytes[i] < 256
  {
    var n := c as int;
    if n < 0x80 then [n]
    else if n < 0x800 then [0xC0 + n / 0x40, 0x80 + n % 0x40]
    else if n < 0x1_0000 then [0xE0 + n / 0x1000, 0x80 + n / 0x40 % 0x40, 0x80 + n % 0x40]
    else [0xF0 + n / 0x4_0000, 0x80 + n / 0x1000 % 0x40, 0x80 + n / 0x40 % 0x40, 0x80 + n % 0x40]
  }

  function Encode(s: string): seq<int> {
    if s == "" then [] else EncodeChar(s[0]) + Encode(s[1..])
  }

  /** How many bytes the character takes that starts with this one. */
  function Width(lead: int): nat {
    if lead < 0x80 then 1 else if lead < 0xE0 then 2 else if lead < 0xF0 then 3 else 4
  }

  /** The code point in these bytes. */
  function CodePoint(bytes: seq<int>): int
    requires 1 <= |bytes| <= 4
  {
    if |bytes| == 1 then bytes[0]
    else if |bytes| == 2 then (bytes[0] - 0xC0) * 0x40 + (bytes[1] - 0x80)
    else if |bytes| == 3 then (bytes[0] - 0xE0) * 0x1000 + (bytes[1] - 0x80) * 0x40 + (bytes[2] - 0x80)
    else (bytes[0] - 0xF0) * 0x4_0000 + (bytes[1] - 0x80) * 0x1000 + (bytes[2] - 0x80) * 0x40 + (bytes[3] - 0x80)
  }

  /** The encoding can be read back: its first byte tells the width, and its bytes the code point. */
  lemma EncodedChar(c: char)
    ensures Width(EncodeChar(c)[0]) == |EncodeChar(c)| && CodePoint(EncodeChar(c)) == c as int
  {
    var n := c as int;
    assert n == n / 0x40 * 0x40 + n % 0x40;
    assert n / 0x40 == n / 0x1000 * 0x40 + n / 0x40 % 0x40;
    assert n / 0x1000 == n / 0x4_0000 * 0x40 + n / 0x1000 % 0x40;
  }

  lemma {:induction false} Decodable(s: string, t: string)
    ensures Encode(s) == Encode(t) <==> s == t
  {
    if s != "" && t != "" {
      EncodedChar(s[0]);
      EncodedChar(t[0]);
      if Encode(s) == Encode(t) {
        var (a, b) := (EncodeChar(s[0]), EncodeChar(t[0]));
        assert (a + Encode(s[1..]))[0] == a[0] && (b + Encode(t[1..]))[0] == b[0];
        assert |a| == |b|;
        assert a == Encode(s)[..|a|] && b == Encode(t)[..|b|];
        assert Encode(s[1..]) == Encode(s)[|a|..] && Encode(t[1..]) == Encode(t)[|b|..];
        Decodable(s[1..], t[1..]);
        assert s == [s[0]] + s[1..] && t == [t[0]] + t[1..];
      }
    }
  }

  /** The length is that of the encoding. */
  lemma {:induction false} Utf8LengthEncodes(s: string)
    ensures Utf8Length(s) == |Encode(s)|
  {
    if s != "" {
      Utf8LengthEncodes(s[1..]);
    }
  }

  lemma {:induction false} Utf8LengthConcat(s: string, t: string)
    ensures Utf8Length(s + t) == Utf8Length(s) + Utf8Length(t)
  {
    if s == "" {
      assert s + t == t;
    } else {
      Utf8LengthConcat(s[1..], t);
      assert (s + t)[1..] == s[1..] + t;
    }
  }

  predicate Ascii(s: string) {
    forall i :: 0 <= i < |s| ==> s[i] as int < 128
  }

  /** Of an ASCII string it is the number of characters. */
  lemma {:induction false} Utf8LengthAscii(s: string)
    ensures Utf8Length(s) == |s| <==> Ascii(s)
  {
    if s != "" {
      Utf8LengthAscii(s[1..]);
      assert Ascii(s) <==> s[0] as int < 128 && Ascii(s[1..]) by {
        assert forall i :: 0 < i < |s| ==> s[i] == s[1..][i - 1];
      }
    }
  }

  // ----- the webhook -----

  datatype Validator = Validator(denyList: seq<string>, allowList: seq<string>)

  datatype Verdict = Allowed | TypeNotAllowed | NameTooShort | NameDenied

  function Validate(v: Validator, name: string, kind: string): Verdict {
    if kind !in v.allowList then TypeNotAllowed
    else if kind != ORG then Allowed
    else if Utf8Length(TrimSpace(name)) < 3 then NameTooShort
    else if name in v.denyList then NameDenied
    else Allowed
  }

  /** An admitted organization has a usable name, so its AccountInfo passes the test that the
      Workspace subroutine makes on the organization name. */
  lemma AdmittedOrgHasName(v: Validator, name: string)
    requires Validate(v, name, ORG) == Allowed
    ensures !Blank(name) && name != ""
  {
    TrimSpaceEmpty(name);
  }

  /** Names with no white space at either end. */
  predicate Trimmed(name: string) {
    name != "" ==> !IsSpace(name[0]) && !IsSpace(name[|name| - 1])
  }

  lemma TrimmedStays(name: string)
    ensures Trimmed(name) <==> TrimSpace(name) == name
  {
    if Trimmed(name) {
      forall n | 0 < n <= |name| ensures !Blank(name[..n]) {
        assert name[..n][0] == name[0];
      }
      forall n | 0 <= n < |name| ensures !Blank(name[n..]) {
        assert name[n..][|name| - n - 1] == name[|name| - 1];
      }
    }
    var i, j := TrimSpaceExactly(name);
    assert name[0..|name|] == name;
  }

  /** Which verdict an ordinary name gets, exactly: for an organization it must have three characters and
      not be on the deny list, for any other type nothing is asked of it. */
  lemma VerdictExactly(v: Validator, name: string, kind: string)
    requires Ascii(name) && Trimmed(name)
    ensures Validate(v, name, kind) ==
            if kind !in v.allowList then TypeNotAllowed
            else if kind == "org" && |name| < 3 then NameTooShort
            else if kind == "org" && name in v.denyList then NameDenied
            else Allowed
  {
    TrimmedStays(name);
    Utf8LengthAscii(name);
  }

  /** Updates are judged by the new object alone. */
  function ValidateUpdate(v: Validator, name: string, oldKind: string, newKind: string): Verdict {
    Validate(v, name, newKind)
  }

  /** The rule for the names of organizations. */
  predicate OrgName(v: Validator, name: string) {
    Utf8Length(TrimSpace(name)) >= 3 && name !in v.denyList
  }

  /** Which updates are admitted, for every validator, name and pair of types: the old type is never
      looked at. */
  lemma TypeChanges(v: Validator, name: string, oldKind: string, newKind: string)
    ensures ValidateUpdate(v, name, oldKind, newKind) == Allowed <==>
              newKind in v.allowList && (newKind == ORG ==> OrgName(v, name))
  {
  }

  /** Updates leave the type of the account of this name alone, if it was admitted. */
  ghost predicate TypeProtected(v: Validator, name: string) {
    forall oldKind, newKind :: Validate(v, name, oldKind) == Allowed && oldKind != newKind ==>
      ValidateUpdate(v, name, oldKind, newKind) != Allowed
  }

  /** The documented property holds exactly where there is no choice: when the allow list, without
      "org" if the name would not do for an organization, has no two different types. */
  lemma TypeProtectedExactly(v: Validator, name: string)
    ensures TypeProtected(v, name) <==>
              forall i, j :: 0 <= i < |v.allowList| && 0 <= j < |v.allowList| && v.allowList[i] != v.allowList[j] ==>
                !OrgName(v, name) && (v.allowList[i] == ORG || v.allowList[j] == ORG)
  {
    if TypeProtected(v, name) {
      forall i, j | 0 <= i < |v.allowList| && 0 <= j < |v.allowList| && v.allowList[i] != v.allowList[j]
        ensures !OrgName(v, name) && (v.allowList[i] == ORG || v.allowList[j] == ORG)
      {
        TypeChanges(v, name, v.allowList[i], v.allowList[i]);
        TypeChanges(v, name, v.allowList[i], v.allowList[j]);
        TypeChanges(v, name, v.allowList[j], v.allowList[i]);
        TypeChanges(v, name, v.allowList[j], v.allowList[j]);
      }
    }
  }
}
