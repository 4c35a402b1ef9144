/**
 * `generate_filename`: ask the completion service for a short name and
 * sanitise the reply, and the f-string that composes the final file name.
 */
module Naming {
  import opened Wrappers
  import opened Strings

  /**
   * Tagged stand-in for the function's two return shapes: a string on
   * success, the tuple `(None, str(e))` when the call raised.
   */
  datatype NamingResult = Success(name: string) | Failure(msg: string)

  /**
   * The completion service: given the user prompt, the first choice's
   * message content, or the text of the exception the call raised
   * (network, authentication, rate limit, an empty `choices` list).
   */
  type Completer = string -> Result<string>

  const PromptHead: string :=
    "Based on this text, suggest a clean, short, descriptive filename in 4\U{2013}6 words. "
    + "Do not include file extension or special characters.\n\n"

  /** The user prompt sent for `text`: fixed instructions, then the text. */
  function Prompt(text: string): (p: string)
    ensures |p| == |PromptHead| + |text|
    ensures p[..|PromptHead|] == PromptHead
    ensures p[|PromptHead|..] == text
  {
    PromptHead + text
  }

  /** The characters the sanitiser rewrites: space and both path separators. */
  predicate IsForbidden(c: char)
  {
    c == ' ' || c == '/' || c == '\\'
  }

  /** Python's `s.replace(from, to)` for single characters. */
  function ReplaceChar(s: string, from: char, to: char): (r: string)
    ensures |r| == |s|
    ensures forall i :: 0 <= i < |s| ==> r[i] == if s[i] == from then to else s[i]
    ensures from != to ==> forall i :: 0 <= i < |r| ==> r[i] != from
  {
    seq(|s|, i requires 0 <= i < |s| => if s[i] == from then to else s[i])
  }

  /**
   * The replace chain `.replace(" ", "_").replace("/", "_").replace("\\", "_")`.
   * The result has the same length, no forbidden character, and differs from
   * the input exactly at the forbidden characters, each of which became '_'.
   */
  function Sanitize(s: string): (r: string)
    ensures |r| == |s|
    ensures forall i :: 0 <= i < |r| ==> !IsForbidden(r[i])
    ensures forall i :: 0 <= i < |s| ==> r[i] == if IsForbidden(s[i]) then '_' else s[i]
  {
    ReplaceChar(ReplaceChar(ReplaceChar(s, ' ', '_'), '/', '_'), '\\', '_')
  }

  /** Sanitising a sanitised name changes nothing. */
  lemma SanitizeIdempotent(s: string)
    ensures Sanitize(Sanitize(s)) == Sanitize(s)
  {
    var r := Sanitize(s);
    assert forall i :: 0 <= i < |r| ==> Sanitize(r)[i] == r[i];
  }

  /** A name that already has no forbidden character is left as it is. */
  lemma SanitizeFixesClean(s: string)
    requires forall i :: 0 <= i < |s| ==> !IsForbidden(s[i])
    ensures Sanitize(s) == s
  {
    assert forall i :: 0 <= i < |s| ==> Sanitize(s)[i] == s[i];
  }

  /** The sanitiser works character by character: it distributes over concatenation. */
  lemma SanitizeConcat(a: string, b: string)
    ensures Sanitize(a + b) == Sanitize(a) + Sanitize(b)
  {
    var l, sa, sb := a + b, Sanitize(a), Sanitize(b);
    var sl := Sanitize(l);
    forall i | 0 <= i < |l|
      ensures sl[i] == (sa + sb)[i]
    {
      if i < |a| {
        assert l[i] == a[i] && sl[i] == sa[i];
      } else {
        assert l[i] == b[i - |a|] && sl[i] == sb[i - |a|];
      }
    }
    assert sl == sa + sb;
  }

  /**
   * `generate_filename(text)`. A reply becomes `Success` of its trimmed,
   * sanitised content: no forbidden character, no surrounding whitespace,
   * as long as the trimmed reply. A raised call becomes `Failure` of its
   * message. An empty name is NOT rejected.
   */
  function GenerateFilename(text: string, complete: Completer): (r: NamingResult)
    ensures r.Success? <==> complete(Prompt(text)).Ok?
    ensures r.Failure? ==> r.msg == complete(Prompt(text)).msg
    ensures r.Success? ==>
      && |r.name| == |Strip(complete(Prompt(text)).value)|
      && (forall i :: 0 <= i < |r.name| ==>
            r.name[i] == if IsForbidden(Strip(complete(Prompt(text)).value)[i]) then '_'
                         else Strip(complete(Prompt(text)).value)[i])
      && (forall i :: 0 <= i < |r.name| ==> !IsForbidden(r.name[i]))
      && (r.name == [] || (!IsSpace(r.name[0]) && !IsSpace(r.name[|r.name| - 1])))
  {
    match complete(Prompt(text))
    case Ok(reply) => Success(Sanitize(Strip(reply)))
    case Err(e) => Failure(e)
  }

  /** A reply of nothing but whitespace yields a successful empty name. */
  lemma BlankReplyGivesEmptyName(text: string, complete: Completer)
    requires complete(Prompt(text)).Ok?
    requires forall i :: 0 <= i < |complete(Prompt(text)).value| ==> IsSpace(complete(Prompt(text)).value[i])
    ensures GenerateFilename(text, complete) == Success("")
  {
    var reply := complete(Prompt(text)).value;
    assert Lead(reply) == |reply|;
  }

  /** A successful name is a fixed point of the sanitiser, so sanitising again changes nothing. */
  lemma GeneratedNameIsSanitized(text: string, complete: Completer)
    requires GenerateFilename(text, complete).Success?
    ensures Sanitize(GenerateFilename(text, complete).name) == GenerateFilename(text, complete).name
  {
    SanitizeFixesClean(GenerateFilename(text, complete).name);
  }

  /** The f-string `f"{prefix}{name}{suffix}.pdf"`. */
  function FinalName(prefix: string, name: string, suffix: string): (r: string)
    ensures |r| == |prefix| + |name| + |suffix| + 4
    ensures r[..|prefix|] == prefix
    ensures r[|prefix|..|prefix| + |name|] == name
    ensures r[|prefix| + |name|..|r| - 4] == suffix
    ensures r[|r| - 4..] == ".pdf"
  {
    prefix + name + suffix + ".pdf"
  }

  /** Whatever the prefix, name and suffix, the final name passes the batch's `.pdf` filter. */
  lemma FinalNameIsPdf(prefix: string, name: string, suffix: string)
    ensures IsPdfName(FinalName(prefix, name, suffix))
  {
    var r := FinalName(prefix, name, suffix);
    IsPdfNameCaseInsensitive(r);
  }
}
