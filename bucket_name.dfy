/**
 * The bucket name of `tf-remote-config`: the domain lower-cased, each `.`
 * spelled `-dot-`, placed in the `{domain}` slot of the bucket template.
 */
module BucketNaming {
  import opened Wrappers

  const DefaultBucketTemplate: string := "terraform-state-{domain}"

  predicate IsUpper(c: char) {
    'A' <= c <= 'Z'
  }

  function LowerChar(c: char): char {
    if IsUpper(c) then (c as int + 32) as char else c
  }

  /** `s.lower()` on ASCII letters: every upper-case letter becomes its lower-case partner, nothing else changes. */
  function Lower(s: string): (r: string)
    ensures |r| == |s|
    ensures forall i :: 0 <= i < |s| ==> r[i] == LowerChar(s[i])
    ensures forall i :: 0 <= i < |s| ==> !IsUpper(r[i])
  {
    if s == [] then [] else [LowerChar(s[0])] + Lower(s[1..])
  }

  lemma LowerIdempotent(s: string)
    ensures Lower(Lower(s)) == Lower(s)
  {
  }

  function Dots(s: string): nat {
    if s == [] then 0 else (if s[0] == '.' then 1 else 0) + Dots(s[1..])
  }

  /** `s.replace('.', '-dot-')`: no dot is left, and each dot grows by four characters. */
  function DotWords(s: string): (r: string)
    ensures forall i :: 0 <= i < |r| ==> r[i] != '.'
    ensures |r| == |s| + 4 * Dots(s)
  {
    if s == [] then []
    else (if s[0] == '.' then "-dot-" else [s[0]]) + DotWords(s[1..])
  }

  /** A single dot is spelled `-dot-`. */
  lemma DotWordsOfDot()
    ensures DotWords(".") == "-dot-"
  {
  }

  lemma {:induction false} DotWordsAppend(a: string, b: string)
    ensures DotWords(a + b) == DotWords(a) + DotWords(b)
    decreases |a|
  {
    if a == [] {
      assert a + b == b;
    } else {
      assert (a + b)[1..] == a[1..] + b;
      DotWordsAppend(a[1..], b);
    }
  }

  /** A name without dots is left as it is. */
  lemma {:induction false} DotWordsWithoutDots(s: string)
    requires forall i :: 0 <= i < |s| ==> s[i] != '.'
    ensures DotWords(s) == s
    decreases |s|
  {
    if s != [] {
      DotWordsWithoutDots(s[1..]);
    }
  }

  /** Spelling out dots brings in no upper-case letter. */
  lemma {:induction false} DotWordsKeepsLowerCase(s: string)
    requires forall i :: 0 <= i < |s| ==> !IsUpper(s[i])
    ensures forall i :: 0 <= i < |DotWords(s)| ==> !IsUpper(DotWords(s)[i])
    decreases |s|
  {
    if s != [] {
      DotWordsKeepsLowerCase(s[1..]);
      var head := if s[0] == '.' then "-dot-" else [s[0]];
      assert DotWords(s) == head + DotWords(s[1..]);
      assert forall i :: 0 <= i < |head| ==> !IsUpper(head[i]);
    }
  }

  /** The value put in the `{domain}` slot: `domain.lower().replace('.', '-dot-')`. */
  function DomainSlug(domain: string): (r: string)
    ensures forall i :: 0 <= i < |r| ==> r[i] != '.' && !IsUpper(r[i])
  {
    DotWordsKeepsLowerCase(Lower(domain));
    DotWords(Lower(domain))
  }

  /** Why `str.format` refuses a template. */
  datatype FormatError = UnknownField(name: string) | UnclosedField | SingleClosingBrace

  /** The first index at or after `from` where `s` holds `c`. */
  function IndexOf(s: string, c: char, from: nat): (r: Option<nat>)
    requires from <= |s|
    ensures r.Some? ==> from <= r.value < |s| && s[r.value] == c
                        && forall k :: from <= k < r.value ==> s[k] != c
    ensures r.None? ==> forall k :: from <= k < |s| ==> s[k] != c
    decreases |s| - from
  {
    if from == |s| then None
    else if s[from] == c then Some(from)
    else IndexOf(s, c, from + 1)
  }

  function Prefixed(p: string, r: Result<string, FormatError>): Result<string, FormatError> {
    match r
    case Ok(s) => Ok(p + s)
    case Err(e) => Err(e)
  }

  /**
   * `t.format(domain=value)`: `{{` and `}}` stand for single braces, the field
   * `{domain}` for the value; any other field, an unclosed `{` or a lone `}`
   * is an error.
   */
  function Format(t: string, value: string): Result<string, FormatError>
    decreases |t|
  {
    if t == [] then Ok([])
    else if t[0] == '{' then
      if |t| > 1 && t[1] == '{' then Prefixed("{", Format(t[2..], value))
      else match IndexOf(t, '}', 1)
        case None => Err(UnclosedField)
        case Some(j) =>
          if t[1..j] == "domain" then Prefixed(value, Format(t[j + 1..], value))
          else Err(UnknownField(t[1..j]))
    else if t[0] == '}' then
      if |t| > 1 && t[1] == '}' then Prefixed("}", Format(t[2..], value))
      else Err(SingleClosingBrace)
    else Prefixed([t[0]], Format(t[1..], value))
  }

  predicate BraceFree(s: string) {
    forall i :: 0 <= i < |s| ==> s[i] != '{' && s[i] != '}'
  }

  /** Only a brace can make a template fail. */
  lemma {:induction false} FormatFailsOnBrace(t: string, value: string)
    requires Format(t, value).Err?
    ensures !BraceFree(t)
    decreases |t|
  {
    if t[0] != '{' && t[0] != '}' {
      FormatFailsOnBrace(t[1..], value);
      var i :| 0 <= i < |t[1..]| && (t[1..][i] == '{' || t[1..][i] == '}');
      assert t[i + 1] == t[1..][i];
    }
  }

  /** Text without braces formats to itself. */
  lemma {:induction false} FormatBraceFree(t: string, value: string)
    requires BraceFree(t)
    ensures Format(t, value) == Ok(t)
    decreases |t|
  {
    if t != [] {
      FormatBraceFree(t[1..], value);
      assert [t[0]] + t[1..] == t;
    }
  }

  /** The `{domain}` field at the very start of a template. */
  lemma FormatSlotFirst(suffix: string, value: string)
    requires BraceFree(suffix)
    ensures Format("{domain}" + suffix, value) == Ok(value + suffix)
  {
    var t := "{domain}" + suffix;
    assert t[0] == '{' && t[1] == 'd' && t[7] == '}';
    assert forall k :: 1 <= k < 7 ==> t[k] != '}';
    assert IndexOf(t, '}', 1) == Some(7);
    assert t[1..7] == "domain";
    assert t[8..] == suffix;
    FormatBraceFree(suffix, value);
  }

  /** A template with one `{domain}` slot between brace-free text formats to that text around the value. */
  lemma {:induction false} FormatOneSlot(prefix: string, suffix: string, value: string)
    requires BraceFree(prefix) && BraceFree(suffix)
    ensures Format(prefix + "{domain}" + suffix, value) == Ok(prefix + value + suffix)
    decreases |prefix|
  {
    if prefix == [] {
      assert prefix + "{domain}" + suffix == "{domain}" + suffix;
      FormatSlotFirst(suffix, value);
      assert prefix + value + suffix == value + suffix;
    } else {
      var t := prefix + "{domain}" + suffix;
      assert t[0] == prefix[0];
      assert t[1..] == prefix[1..] + "{domain}" + suffix;
      FormatOneSlot(prefix[1..], suffix, value);
      assert [prefix[0]] + (prefix[1..] + value + suffix) == prefix + value + suffix;
    }
  }

  /** The bucket name `tf-remote-config` works with; only a brace in the template can make it fail. */
  function BucketName(template: string, domain: string): (r: Result<string, FormatError>)
    ensures r.Err? ==> !BraceFree(template)
  {
    var r := Format(template, DomainSlug(domain));
    if r.Err? then FormatFailsOnBrace(template, DomainSlug(domain)); r else r
  }

  /** With the default template the bucket name is `terraform-state-` followed by the slug. */
  lemma DefaultBucketName(domain: string)
    ensures BucketName(DefaultBucketTemplate, domain) == Ok("terraform-state-" + DomainSlug(domain))
  {
    var prefix := "terraform-state-";
    assert DefaultBucketTemplate == prefix + "{domain}" + "";
    FormatOneSlot(prefix, "", DomainSlug(domain));
    assert prefix + DomainSlug(domain) + "" == prefix + DomainSlug(domain);
  }

  lemma LowerFooDotCom()
    ensures Lower("FOO.com") == "foo.com"
  {
  }

  lemma DotWordsFooDotCom()
    ensures DotWords("foo.com") == "foo-dot-com"
  {
  }

  lemma SlugFooDotCom()
    ensures DomainSlug("FOO.com") == "foo-dot-com"
  {
    LowerFooDotCom();
    DotWordsFooDotCom();
  }

  /** `FOO.com` gives the bucket `terraform-state-foo-dot-com`. */
  lemma FooDotCom()
    ensures BucketName(DefaultBucketTemplate, "FOO.com") == Ok("terraform-state-foo-dot-com")
  {
    SlugFooDotCom();
    DefaultBucketName("FOO.com");
    assert "terraform-state-" + "foo-dot-com" == "terraform-state-foo-dot-com";
  }
}
