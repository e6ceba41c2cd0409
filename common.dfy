/**
 * Values and text operations shared by the whole model: the Java objects the
 * chains pass around, the exceptions they raise, and the java.lang.String
 * operations the orchestration code relies on (replace, indexOf, substring,
 * toLowerCase, trim, String.join, Integer.toString).
 */
module Common {

  datatype Option<+T> = None | Some(value: T)

  /** The exceptions the modelled code raises or lets escape. */
  datatype Error =
    | IllegalArgument(message: string)
    | NullPointer
    | ClassCast
    | IndexOutOfBounds
    | SqlFailure(message: string)
    | NotSupported
    | UnsupportedOperation(message: string)
    | RequestFailure(message: string)

  /** A computation that either returns a value or throws one of the exceptions above. */
  datatype Result<+T> = Ok(value: T) | Err(error: Error)

  /** A java.lang.Object as the chains see it: null, a String, an Integer or a List<String>. */
  datatype Value = Null | Str(s: string) | Int(i: int) | StrList(items: seq<string>)

  /** Map.get: the value stored under the key, or null. */
  function Get(m: map<string, Value>, key: string): (v: Value)
    ensures key !in m ==> v.Null?
  {
    if key in m then m[key] else Null
  }

  /** A possibly null String as an Object. */
  function NullableStr(s: Option<string>): Value
  {
    match s
    case Some(t) => Str(t)
    case None => Null
  }

  /** The output parser a prompt template carries. */
  datatype OutputParser = NoParser | CommaSeparatedList

  /**
   * A prompt template: either declared with its variable list and text, built
   * with PromptTemplate.fromTemplate (variables inferred by the library), or a
   * constant of the langchain library whose text is not part of this model.
   */
  datatype Template =
    | Declared(inputVariables: seq<string>, text: string, parser: OutputParser)
    | FromText(text: string)
    | External(name: string)

  /**
   * An LLMChain: a prompt template and the language model behind it. `complete`
   * stands for rendering the template with the inputs and asking the model for
   * a completion; neither is interpreted here.
   */
  datatype LlmChain = LlmChain(prompt: Template, complete: (Template, map<string, Value>) -> string)
  {
    function Predict(inputs: map<string, Value>): string
    {
      complete(prompt, inputs)
    }
  }

  // ---------------------------------------------------------------------
  // Subsequences

  /** `r` is what is left of `s` after deleting some of its elements: the rest keep their order. */
  predicate Subsequence(r: seq<string>, s: seq<string>)
    decreases |s|
  {
    r == [] ||
    (s != [] && (Subsequence(r, s[..|s| - 1]) ||
                 (r[|r| - 1] == s[|s| - 1] && Subsequence(r[..|r| - 1], s[..|s| - 1]))))
  }

  /** Appending an element to `s` keeps `r` a subsequence, with or without the element appended to `r` too. */
  lemma SubsequenceSnoc(r: seq<string>, s: seq<string>, x: string)
    requires Subsequence(r, s)
    ensures Subsequence(r, s + [x]) && Subsequence(r + [x], s + [x])
  {
    assert (s + [x])[..|s|] == s;
    assert (r + [x])[..|r|] == r;
  }

  /** Prepending an element to `s` keeps `r` a subsequence, with or without the element prepended to `r` too. */
  lemma {:induction false} SubsequenceCons(r: seq<string>, s: seq<string>, x: string)
    requires Subsequence(r, s)
    ensures Subsequence(r, [x] + s) && Subsequence([x] + r, [x] + s)
    decreases |s|
  {
    if s == [] {
      assert r == [];
      assert ([x] + r)[..0] == [];
    } else {
      var init := s[..|s| - 1];
      assert ([x] + s)[..|s|] == [x] + init;
      assert ([x] + s)[|s|] == s[|s| - 1];
      if r == [] {
        SubsequenceCons(r, init, x);
        assert [x] + r == [x];
      } else if Subsequence(r, init) {
        SubsequenceCons(r, init, x);
      } else {
        var rinit := r[..|r| - 1];
        assert r[|r| - 1] == s[|s| - 1] && Subsequence(rinit, init);
        SubsequenceCons(rinit, init, x);
        assert ([x] + r)[..|r|] == [x] + rinit;
        assert ([x] + r)[|r|] == r[|r| - 1];
      }
    }
  }

  // ---------------------------------------------------------------------
  // Searching

  /** `pat` occurs in `s` starting at index `i`. */
  predicate OccursAt(s: string, pat: string, i: int)
  {
    0 <= i && i + |pat| <= |s| && s[i..i + |pat|] == pat
  }

  /** An occurrence inside a slice is an occurrence in the whole string, shifted by the slice's start. */
  lemma OccursInSlice(s: string, pat: string, lo: nat, hi: nat, j: nat)
    requires lo <= hi <= |s|
    ensures OccursAt(s[lo..hi], pat, j) <==> lo + j + |pat| <= hi && OccursAt(s, pat, lo + j)
  {
    if lo + j + |pat| <= hi {
      var a := s[lo..hi][j..j + |pat|];
      var b := s[lo + j..lo + j + |pat|];
      forall k | 0 <= k < |pat|
        ensures a[k] == b[k]
      {
      }
      assert a == b;
    }
  }

  /** String.contains */
  predicate Contains(s: string, pat: string)
  {
    exists i | 0 <= i <= |s| - |pat| :: OccursAt(s, pat, i)
  }

  /** String.indexOf(pat, from) for a non-empty pattern: the first occurrence at or after `from`, or -1. */
  function IndexFrom(s: string, pat: string, from: nat): (r: int)
    requires pat != []
    ensures r == -1 || (from <= r && OccursAt(s, pat, r))
    ensures forall k | from <= k && (r == -1 || k < r) :: !OccursAt(s, pat, k)
    decreases |s| - from
  {
    if from + |pat| > |s| then -1
    else if s[from..from + |pat|] == pat then from
    else IndexFrom(s, pat, from + 1)
  }

  /** String.indexOf(pat) for a non-empty pattern. */
  function IndexOf(s: string, pat: string): (r: int)
    requires pat != []
    ensures r == -1 <==> !Contains(s, pat)
    ensures r != -1 ==> OccursAt(s, pat, r) && forall k | 0 <= k < r :: !OccursAt(s, pat, k)
  {
    IndexFrom(s, pat, 0)
  }

  lemma OccurrenceShows(s: string, pat: string, i: int)
    requires OccursAt(s, pat, i)
    ensures Contains(s, pat)
  {
  }

  /** An occurrence in a suffix is an occurrence in the whole string, shifted. */
  lemma OccursInSuffix(s: string, pat: string, d: nat, i: int)
    requires d <= |s| && OccursAt(s[d..], pat, i)
    ensures OccursAt(s, pat, i + d)
  {
    assert s[i + d..i + d + |pat|] == s[d..][i..i + |pat|];
  }

  /** Text without the pattern's first character cannot contain the pattern. */
  lemma AbsentFirstChar(s: string, pat: string)
    requires pat != [] && pat[0] !in s
    ensures !Contains(s, pat)
  {
    forall i | 0 <= i <= |s| - |pat|
      ensures !OccursAt(s, pat, i)
    {
      assert s[i..i + |pat|][0] == s[i] != pat[0];
    }
  }

  /** Plain text in front of a text that lacks the pattern does not create it. */
  lemma AbsentAfterPlainText(a: string, b: string, pat: string)
    requires pat != [] && pat[0] !in a && !Contains(b, pat)
    ensures !Contains(a + b, pat)
  {
    forall i | 0 <= i <= |a + b| - |pat|
      ensures !OccursAt(a + b, pat, i)
    {
      if i < |a| {
        assert (a + b)[i..i + |pat|][0] == a[i] != pat[0];
      } else {
        assert !OccursAt(b, pat, i - |a|);
        assert (a + b)[i..i + |pat|] == b[i - |a|..i - |a| + |pat|];
      }
    }
  }

  /**
   * A different placeholder in front of a text that lacks the pattern does not
   * create it: `q` differs from the pattern at some position `k` they share, and
   * no character of `q` after its first starts the pattern.
   */
  lemma AbsentAfterOtherToken(q: string, b: string, pat: string, k: nat)
    requires 0 < k < |q| && k < |pat| && q[k] != pat[k] && pat[0] !in q[1..]
    requires !Contains(b, pat)
    ensures !Contains(q + b, pat)
  {
    AbsentAfterPlainText(q[1..], b, pat);
    forall i | 0 <= i <= |q + b| - |pat|
      ensures !OccursAt(q + b, pat, i)
    {
      if i == 0 {
        assert (q + b)[..|pat|][k] == q[k] != pat[k];
      } else {
        var rest := q[1..] + b;
        assert 0 <= i - 1 <= |rest| - |pat|;
        assert !OccursAt(rest, pat, i - 1);
        assert (q + b)[i..i + |pat|] == rest[i - 1..i - 1 + |pat|];
      }
    }
  }

  /** The pattern placed between two texts is contained in the result. */
  lemma PresentBetween(a: string, pat: string, b: string)
    ensures Contains(a + pat + b, pat)
  {
    assert (a + pat + b)[|a|..|a| + |pat|] == pat;
    OccurrenceShows(a + pat + b, pat, |a|);
  }

  /** `pat` occurs in `s` at index `i` and nowhere else. */
  ghost predicate OccursOnlyAt(s: string, pat: string, i: int)
  {
    OccursAt(s, pat, i) && forall j :: OccursAt(s, pat, j) ==> j == i
  }

  /**
   * A pattern whose first character does not recur inside it (a "{name}"
   * placeholder), placed between two texts that lack it, occurs exactly once.
   */
  lemma OnceBetween(a: string, pat: string, b: string)
    requires pat != [] && pat[0] !in pat[1..]
    requires !Contains(a, pat) && !Contains(b, pat)
    ensures OccursOnlyAt(a + pat + b, pat, |a|)
  {
    var s := a + pat + b;
    assert s[|a|..|a| + |pat|] == pat;
    forall j | 0 <= j && j != |a| && j + |pat| <= |s|
      ensures !OccursAt(s, pat, j)
    {
      if j + |pat| <= |a| {
        assert !OccursAt(a, pat, j);
        assert s[j..j + |pat|] == a[j..j + |pat|];
      } else if j < |a| {
        assert pat[|a| - j] == pat[1..][|a| - j - 1];
        assert s[j..j + |pat|][|a| - j] == pat[0];
      } else if j < |a| + |pat| {
        assert pat[j - |a|] == pat[1..][j - |a| - 1];
        assert s[j..j + |pat|][0] == pat[j - |a|];
      } else {
        assert !OccursAt(b, pat, j - |a| - |pat|);
        assert s[j..j + |pat|] == b[j - |a| - |pat|..j - |a|];
      }
    }
  }

  // ---------------------------------------------------------------------
  // Replacing

  /**
   * String.replace(pat, rep) for a non-empty pattern: every non-overlapping
   * occurrence of `pat`, found scanning left to right, is replaced by `rep`;
   * the replacement text is not scanned again.
   */
  function ReplaceAll(s: string, pat: string, rep: string): (r: string)
    requires pat != []
    ensures !Contains(s, pat) ==> r == s
    decreases |s|
  {
    if |s| < |pat| then s
    else if s[..|pat|] == pat then
      assert OccursAt(s, pat, 0);
      rep + ReplaceAll(s[|pat|..], pat, rep)
    else
      assert !Contains(s, pat) ==> !Contains(s[1..], pat) by {
        if Contains(s[1..], pat) {
          var i :| 0 <= i <= |s[1..]| - |pat| && OccursAt(s[1..], pat, i);
          OccursInSuffix(s, pat, 1, i);
        }
      }
      [s[0]] + ReplaceAll(s[1..], pat, rep)
  }

  /** Text that cannot start an occurrence is copied unchanged. */
  lemma {:induction false} ReplaceAfterPlainText(a: string, s: string, pat: string, rep: string)
    requires pat != [] && pat[0] !in a
    ensures ReplaceAll(a + s, pat, rep) == a + ReplaceAll(s, pat, rep)
    decreases |a|
  {
    if a != [] {
      assert (a + s)[1..] == a[1..] + s;
      assert (a + s)[0] == a[0];
      ReplaceAfterPlainText(a[1..], s, pat, rep);
      assert a == [a[0]] + a[1..];
    } else {
      assert a + s == s;
    }
  }

  /** An occurrence at the front is replaced and scanning resumes after it. */
  lemma ReplaceAtFront(s: string, pat: string, rep: string)
    requires pat != []
    ensures ReplaceAll(pat + s, pat, rep) == rep + ReplaceAll(s, pat, rep)
  {
    assert (pat + s)[..|pat|] == pat;
    assert (pat + s)[|pat|..] == s;
  }

  /** A single occurrence after plain text is replaced. */
  lemma ReplaceSingle(a: string, pat: string, rep: string)
    requires pat != [] && pat[0] !in a
    ensures ReplaceAll(a + pat, pat, rep) == a + rep
  {
    ReplaceAfterPlainText(a, pat, pat, rep);
    ReplaceAtFront("", pat, rep);
    assert pat + "" == pat;
  }

  /** Replacing a single character by nothing removes every copy of it. */
  lemma {:induction false} ReplaceCharByNothing(s: string, c: char)
    ensures c !in ReplaceAll(s, [c], "")
    decreases |s|
  {
    if |s| >= 1 {
      ReplaceCharByNothing(s[1..], c);
    }
  }

  /** Replacing a character that does not occur leaves the text unchanged. */
  lemma ReplaceAbsentChar(s: string, c: char, rep: string)
    requires c !in s
    ensures ReplaceAll(s, [c], rep) == s
  {
  }

  /** String.replace(";", ""). */
  function RemoveSemicolons(s: string): (r: string)
    ensures ';' !in r
    ensures ';' !in s ==> r == s
  {
    ReplaceCharByNothing(s, ';');
    assert ';' !in s ==> ReplaceAll(s, ";", "") == s by {
      if ';' !in s { ReplaceAbsentChar(s, ';', ""); }
    }
    ReplaceAll(s, ";", "")
  }

  // ---------------------------------------------------------------------
  // Case, blanks, trimming

  /** Character.toLowerCase restricted to ASCII letters. */
  function LowerChar(c: char): char
  {
    if 'A' <= c <= 'Z' then (c as int + 32) as char else c
  }

  /** String.toLowerCase (ASCII letters only). */
  function Lower(s: string): (r: string)
    ensures |r| == |s| && forall i | 0 <= i < |s| :: r[i] == LowerChar(s[i])
  {
    seq(|s|, i requires 0 <= i < |s| => LowerChar(s[i]))
  }

  /** Character.isWhitespace */
  predicate IsJavaWhitespace(c: char)
  {
    c == ' ' || c == '\t' || c == '\n' || c == '\U{000B}' || c == '\U{000C}' || c == '\r'
    || ('\U{001C}' <= c <= '\U{001F}') || c == '\U{1680}' || ('\U{2000}' <= c <= '\U{2006}')
    || ('\U{2008}' <= c <= '\U{200A}') || c == '\U{2028}' || c == '\U{2029}' || c == '\U{205F}'
    || c == '\U{3000}'
  }

  /** StringUtils.isBlank: null, empty or whitespace only. */
  predicate IsBlank(s: Option<string>)
  {
    s.None? || forall i | 0 <= i < |s.value| :: IsJavaWhitespace(s.value[i])
  }

  /** StringUtils.isNotEmpty: neither null nor "". */
  predicate IsNotEmpty(s: Option<string>)
  {
    s.Some? && s.value != ""
  }

  /** String.trim: removes every leading and trailing character at or below U+0020. */
  function Trim(s: string): (r: string)
    ensures |r| <= |s|
    ensures r != [] ==> r[0] > ' ' && r[|r| - 1] > ' '
  {
    TrimEnd(TrimStart(s))
  }

  function TrimStart(s: string): (r: string)
    ensures |r| <= |s| && r == s[|s| - |r|..]
    ensures r != [] ==> r[0] > ' '
  {
    if s == [] || s[0] > ' ' then s else TrimStart(s[1..])
  }

  function TrimEnd(s: string): (r: string)
    ensures |r| <= |s| && r == s[..|r|]
    ensures r != [] ==> r[|r| - 1] > ' '
  {
    if s == [] || s[|s| - 1] > ' ' then s else TrimEnd(s[..|s| - 1])
  }

  predicate AllNewlines(s: string)
  {
    forall k | 0 <= k < |s| :: s[k] == '\n'
  }

  /** Removes every trailing '\n' (the regular expression "\n+$" replaced by ""). */
  function StripTrailingNewlines(s: string): (r: string)
    ensures |r| <= |s| && r == s[..|r|] && AllNewlines(s[|r|..])
    ensures r == [] || r[|r| - 1] != '\n'
  {
    if s != [] && s[|s| - 1] == '\n' then
      var t := StripTrailingNewlines(s[..|s| - 1]);
      assert s[|t|..] == s[..|s| - 1][|t|..] + "\n";
      t
    else
      s
  }

  // ---------------------------------------------------------------------
  // Joining and numbers

  /** Appending to a concatenation appends to its second part. */
  lemma Regroup(a: string, b: string, c: string, bc: string)
    requires b + c == bc
    ensures (a + b) + c == a + bc
  {
  }

  /** String.join(sep, parts). */
  function Join(sep: string, parts: seq<string>): string
  {
    if parts == [] then ""
    else if |parts| == 1 then parts[0]
    else parts[0] + sep + Join(sep, parts[1..])
  }

  /** Joining one more part appends the separator and the part. */
  lemma {:induction false} JoinSnoc(sep: string, parts: seq<string>, p: string)
    requires parts != []
    ensures Join(sep, parts + [p]) == Join(sep, parts) + sep + p
    decreases |parts|
  {
    if |parts| > 1 {
      assert (parts + [p])[1..] == parts[1..] + [p];
      JoinSnoc(sep, parts[1..], p);
    } else {
      assert (parts + [p])[1..] == [p];
    }
  }

  /** The Java rendering of a List<String>: "[a, b]". */
  function ListToString(items: seq<string>): string
  {
    "[" + Join(", ", items) + "]"
  }

  function DigitChar(d: int): char
    requires 0 <= d < 10
  {
    "0123456789"[d]
  }

  function NatToString(n: nat): (r: string)
    ensures r != []
    decreases n
  {
    if n < 10 then [DigitChar(n)] else NatToString(n / 10) + [DigitChar(n % 10)]
  }

  /** Integer.toString / String.valueOf(int). */
  function IntToString(i: int): string
  {
    if i < 0 then "-" + NatToString(-i) else NatToString(i)
  }

  /** String.valueOf: Object.toString, with null written "null". */
  function ToStr(v: Value): string
  {
    match v
    case Null => "null"
    case Str(s) => s
    case Int(i) => IntToString(i)
    case StrList(items) => ListToString(items)
  }

  /** String concatenation with a possibly null String: null renders as "null". */
  function JavaString(s: Option<string>): string
  {
    match s
    case Some(t) => t
    case None => "null"
  }
}
