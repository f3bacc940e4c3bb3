/** The deployment-name check of app.py: the Kubernetes DNS-1123 subdomain
    pattern `^[a-z0-9]([-a-z0-9]*[a-z0-9])?(\.[a-z0-9]([-a-z0-9]*[a-z0-9])?)*$`
    (the label syntax of section 2.1 of RFC 1123, lowercase only, no length
    limit) as Python's `re.match` applies it, and the coercion applied to a
    name that fails it. */
module Dns1123 {
  import opened Ascii

  predicate IsAlnum(c: char) { IsLower(c) || IsDigit(c) }

  predicate IsLabelChar(c: char) { IsAlnum(c) || c == '-' }

  /** One label: `[a-z0-9]([-a-z0-9]*[a-z0-9])?`. */
  predicate IsLabel(s: string)
  {
    && |s| > 0
    && IsAlnum(s[0])
    && IsAlnum(s[|s| - 1])
    && forall i :: 0 <= i < |s| ==> IsLabelChar(s[i])
  }

  /** The index of the first '.' in `s`, or `|s|` if there is none. */
  function FirstDot(s: string): (i: nat)
    ensures i <= |s|
    ensures i < |s| ==> s[i] == '.'
    ensures forall j :: 0 <= j < i ==> s[j] != '.'
  {
    if s == [] then 0
    else if s[0] == '.' then 0
    else 1 + FirstDot(s[1..])
  }

  /** The whole pattern: labels joined by '.', read one label at a time. */
  predicate IsSubdomain(s: string)
    decreases |s|
  {
    var i := FirstDot(s);
    && IsLabel(s[..i])
    && (i < |s| ==> IsSubdomain(s[i + 1..]))
  }

  /** An independent description of the same language, character by character:
      non-empty, only `[-.a-z0-9]`, alphanumeric at both ends, and every '.'
      has an alphanumeric on both sides. */
  ghost predicate WellFormed(s: string)
  {
    && |s| > 0
    && IsAlnum(s[0])
    && IsAlnum(s[|s| - 1])
    && (forall i :: 0 <= i < |s| ==> IsLabelChar(s[i]) || s[i] == '.')
    && (forall i :: 0 < i < |s| && s[i] == '.' ==> IsAlnum(s[i - 1]))
    && (forall i :: 0 <= i < |s| - 1 && s[i] == '.' ==> IsAlnum(s[i + 1]))
  }

  /** A label, a '.' and a well-formed rest make a well-formed name. */
  lemma JoinWellFormed(s: string, i: nat)
    requires i < |s| && s[i] == '.'
    requires IsLabel(s[..i]) && WellFormed(s[i + 1..])
    ensures WellFormed(s)
  {
    var rest := s[i + 1..];
    assert forall j :: 0 <= j < i ==> s[j] == s[..i][j];
    assert s[i + 1] == rest[0];
    assert s[|s| - 1] == rest[|rest| - 1];
    forall j | 0 <= j < |s| ensures IsLabelChar(s[j]) || s[j] == '.' {
      if j < i { assert s[j] == s[..i][j]; }
      else if j > i { assert s[j] == rest[j - i - 1]; }
    }
    forall j | 0 < j < |s| && s[j] == '.' ensures IsAlnum(s[j - 1]) {
      if j > i + 1 { assert s[j] == rest[j - i - 1] && s[j - 1] == rest[j - i - 2]; }
    }
    forall j | 0 <= j < |s| - 1 && s[j] == '.' ensures IsAlnum(s[j + 1]) {
      if j > i { assert s[j] == rest[j - i - 1] && s[j + 1] == rest[j - i]; }
    }
  }

  /** A well-formed name splits at its first '.' into a label and a
      well-formed rest. */
  lemma SplitWellFormed(s: string, i: nat)
    requires WellFormed(s) && i < |s| && s[i] == '.'
    requires forall j :: 0 <= j < i ==> s[j] != '.'
    ensures IsLabel(s[..i]) && WellFormed(s[i + 1..])
  {
    assert i > 0;
    var prefix := s[..i];
    forall j | 0 <= j < |prefix| ensures IsLabelChar(prefix[j]) {
      assert prefix[j] == s[j];
    }
    var rest := s[i + 1..];
    assert rest[0] == s[i + 1];
    forall j | 0 < j < |rest| && rest[j] == '.' ensures IsAlnum(rest[j - 1]) {
      assert rest[j] == s[i + 1 + j] && rest[j - 1] == s[i + j];
    }
    forall j | 0 <= j < |rest| - 1 && rest[j] == '.' ensures IsAlnum(rest[j + 1]) {
      assert rest[j] == s[i + 1 + j] && rest[j + 1] == s[i + 2 + j];
    }
    forall j | 0 <= j < |rest| ensures IsLabelChar(rest[j]) || rest[j] == '.' {
      assert rest[j] == s[i + 1 + j];
    }
  }

  /** The recursive predicate accepts exactly the well-formed names. */
  lemma {:induction false} SubdomainIsWellFormed(s: string)
    ensures IsSubdomain(s) <==> WellFormed(s)
    decreases |s|
  {
    var i := FirstDot(s);
    if i < |s| {
      SubdomainIsWellFormed(s[i + 1..]);
      if IsSubdomain(s) { JoinWellFormed(s, i); }
      if WellFormed(s) { SplitWellFormed(s, i); }
    } else {
      assert s[..i] == s;
    }
  }

  /** Python's `re.match(pattern, s)` succeeds: the pattern ends in `$`,
      which also matches in front of one final newline. */
  predicate Matches(s: string)
  {
    || IsSubdomain(s)
    || (|s| > 0 && s[|s| - 1] == '\n' && IsSubdomain(s[..|s| - 1]))
  }

  /** One character of `s.replace("_", "-").replace(" ", "-").lower()`. */
  function CoerceChar(c: char): char
  {
    if c == '_' || c == ' ' then '-' else LowerChar(c)
  }

  /** `s.replace("_", "-").replace(" ", "-").lower()`. */
  function Coerce(s: string): string
  {
    if s == [] then [] else [CoerceChar(s[0])] + Coerce(s[1..])
  }

  /** Coercion works character by character and keeps the length. */
  lemma {:induction false} CoerceAt(s: string)
    ensures |Coerce(s)| == |s|
    ensures forall i :: 0 <= i < |s| ==> Coerce(s)[i] == CoerceChar(s[i])
  {
    if s != [] {
      CoerceAt(s[1..]);
      forall i | 0 < i < |s| ensures Coerce(s)[i] == CoerceChar(s[i]) {
        assert Coerce(s)[i] == Coerce(s[1..])[i - 1];
      }
    }
  }

  /** A coerced name holds no '_', no space and no upper-case letter. */
  lemma {:induction false} CoerceIsClean(s: string)
    ensures forall i :: 0 <= i < |Coerce(s)| ==>
      Coerce(s)[i] != '_' && Coerce(s)[i] != ' ' && !IsUpper(Coerce(s)[i])
  {
    CoerceAt(s);
  }

  /** Coercing twice is coercing once. */
  lemma {:induction false} CoerceIdempotent(s: string)
    ensures Coerce(Coerce(s)) == Coerce(s)
  {
    if s != [] {
      CoerceIdempotent(s[1..]);
      assert Coerce(s)[1..] == Coerce(s[1..]);
    }
  }

  /** What `get_deployment_name` returns for a string name: the name itself
      when it passes the check, otherwise its coercion. */
  function Normalize(s: string): string
  {
    if Matches(s) then s else Coerce(s)
  }

  /** Normalizing a normalized name changes nothing. */
  lemma NormalizeIdempotent(s: string)
    ensures Normalize(Normalize(s)) == Normalize(s)
  {
    if !Matches(s) && !Matches(Coerce(s)) {
      CoerceIdempotent(s);
    }
  }

  /** A name with an '_', a space or an upper-case letter (anywhere but in a
      final newline position) fails the check, so it is coerced; the result
      has none of these characters left. */
  lemma {:induction false} DirtyNameIsCoerced(s: string, k: nat)
    requires k < |s| && (s[k] == '_' || s[k] == ' ' || IsUpper(s[k]))
    ensures Normalize(s) == Coerce(s)
    ensures forall i :: 0 <= i < |Normalize(s)| ==>
      Normalize(s)[i] != '_' && Normalize(s)[i] != ' ' && !IsUpper(Normalize(s)[i])
  {
    SubdomainIsWellFormed(s);
    assert !IsSubdomain(s);
    if |s| > 0 && s[|s| - 1] == '\n' {
      var t := s[..|s| - 1];
      SubdomainIsWellFormed(t);
      assert k < |t| && t[k] == s[k];
      assert !IsSubdomain(t);
    }
    CoerceIsClean(s);
  }

  /** Coercion does not always produce a valid name: a leading '-' or a
      doubled '.' survive it. */
  lemma CoercedNameMayStillFail()
    ensures Normalize("_a") == "-a"
    ensures !Matches(Normalize("_a"))
  {
    assert !IsSubdomain("_a") by { SubdomainIsWellFormed("_a"); }
    assert !Matches("_a");
    CoerceAt("_a");
    assert Coerce("_a") == "-a";
    SubdomainIsWellFormed("-a");
    SubdomainIsWellFormed("-");
  }

  /** "My Model", with an upper-case letter and a space, becomes "my-model". */
  lemma MyModelExample()
    ensures Normalize("My Model") == "my-model"
  {
    assert Coerce("My Model") == "my-model";
    DirtyNameIsCoerced("My Model", 0);
  }
}
