/** The naming scheme of generated workspace types: account name, hyphen, account type. */
module Naming {
  const ORG := "org"
  const ACCOUNT := "account"

  function TypeName(name: string, kind: string): string {
    name + "-" + kind
  }

  /** The position just after the last hyphen of s, or 0 when s has none. */
  function AfterLastHyphen(s: string): (i: nat)
    ensures i <= |s|
    ensures '-' !in s[i..]
    ensures i != 0 ==> s[i - 1] == '-'
  {
    if s == [] then 0
    else if s[|s| - 1] == '-' then |s|
    else
      var i := AfterLastHyphen(s[..|s| - 1]);
      assert s[i..] == s[..|s| - 1][i..] + [s[|s| - 1]];
      i
  }

  /** Splitting a generated name at its last hyphen gives back the account name and the type,
      whatever hyphens the account name itself has. */
  lemma {:induction false} SplitAtLastHyphen(name: string, kind: string)
    requires '-' !in kind
    ensures AfterLastHyphen(TypeName(name, kind)) == |name| + 1
    ensures TypeName(name, kind)[..|name|] == name && TypeName(name, kind)[|name| + 1..] == kind
  {
    var s := TypeName(name, kind);
    if kind != "" {
      SplitAtLastHyphen(name, kind[..|kind| - 1]);
      assert s[..|s| - 1] == TypeName(name, kind[..|kind| - 1]);
      assert s[|s| - 1] == kind[|kind| - 1];
    }
  }

  lemma TypeNameInjective(n1: string, k1: string, n2: string, k2: string)
    requires '-' !in k1 && '-' !in k2
    ensures TypeName(n1, k1) == TypeName(n2, k2) <==> n1 == n2 && k1 == k2
  {
    SplitAtLastHyphen(n1, k1);
    SplitAtLastHyphen(n2, k2);
  }

  /** Exactly when naming can confuse two accounts: a type with a hyphen makes it ambiguous. */
  lemma HyphenatedTypesCollide(name: string, kind: string, i: nat)
    requires i < |kind| && kind[i] == '-'
    ensures TypeName(name, kind) == TypeName(name + "-" + kind[..i], kind[i + 1..])
    ensures name != name + "-" + kind[..i]
  {
    assert kind == kind[..i] + "-" + kind[i + 1..];
    assert TypeName(name, kind) == TypeName(name + "-" + kind[..i], kind[i + 1..]);
    assert |name| != |name + "-" + kind[..i]|;
  }
}
