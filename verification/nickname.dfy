/**
 * `NicknameGenerator`: the base of a generated nickname, taken from a
 * display name, an e-mail address or a username, and the random four-digit
 * suffix that makes it unique. The random draw is a parameter.
 */
module Nicknames {
  import opened Common
  import opened Text

  const Fallback: string := "user"
  const MaxBase: nat := 12

  /** The characters of the regular expression `\s`: space, tab, line feed, vertical tab, form feed, carriage return. */
  predicate IsRegexSpace(c: char) {
    c == ' ' || ('\t' <= c <= '\r')
  }

  /** The class `[0-9A-Za-z가-힣_]`: digits, ASCII letters, the Hangul syllables and the underscore. */
  predicate IsNicknameChar(c: char) {
    ('0' <= c <= '9') || ('A' <= c <= 'Z') || ('a' <= c <= 'z') || ('\U{AC00}' <= c <= '\U{D7A3}') || c == '_'
  }

  predicate AllNicknameChars(s: string) {
    forall i :: 0 <= i < |s| ==> IsNicknameChar(s[i])
  }

  /** `replaceAll("\\s+", "")`: the string without its whitespace, in order. */
  function RemoveSpaces(s: string): (r: string)
    ensures |r| <= |s|
    ensures forall i :: 0 <= i < |r| ==> !IsRegexSpace(r[i])
    decreases |s|
  {
    if |s| == 0 then []
    else if IsRegexSpace(s[0]) then RemoveSpaces(s[1..])
    else [s[0]] + RemoveSpaces(s[1..])
  }

  /** `replaceAll("[^0-9A-Za-z가-힣_]", "")`: only the allowed characters, in order. */
  function KeepNicknameChars(s: string): (r: string)
    ensures |r| <= |s|
    ensures AllNicknameChars(r)
    decreases |s|
  {
    if |s| == 0 then []
    else if IsNicknameChar(s[0]) then [s[0]] + KeepNicknameChars(s[1..])
    else KeepNicknameChars(s[1..])
  }

  /** `String.indexOf(char)`: the first position of `c`, or -1. */
  function IndexOf(s: string, c: char): (r: int)
    ensures -1 <= r < |s|
    ensures r == -1 <==> c !in s
    ensures r >= 0 ==> s[r] == c && c !in s[..r]
    decreases |s|
  {
    if |s| == 0 then -1
    else if s[0] == c then 0
    else
      var rest := IndexOf(s[1..], c);
      assert s == [s[0]] + s[1..];
      if rest == -1 then -1
      else
        assert s[..rest + 1] == [s[0]] + s[1..][..rest];
        rest + 1
  }

  /** The last two steps of `baseFrom`: the fallback for an empty result, and the cut to 12 characters. */
  function Finish(s: string): string {
    var t := if s == [] then Fallback else s;
    if |t| > MaxBase then t[..MaxBase] else t
  }

  /** `baseFrom`. */
  function BaseFrom(raw: Option<string>): (r: string)
    ensures 1 <= |r| <= MaxBase
    ensures AllNicknameChars(r)
  {
    var s := if raw.None? then [] else Trim(raw.value);
    var s := if s == [] then Fallback else s;
    var at := IndexOf(s, '@');
    var s := if at > 0 then s[..at] else s;
    var r := Finish(KeepNicknameChars(RemoveSpaces(s)));
    assert AllNicknameChars(Fallback);
    r
  }

  lemma {:induction false} RemoveSpacesOfClean(s: string)
    requires forall i :: 0 <= i < |s| ==> !IsRegexSpace(s[i])
    ensures RemoveSpaces(s) == s
    decreases |s|
  {
    if |s| > 0 {
      RemoveSpacesOfClean(s[1..]);
    }
  }

  lemma {:induction false} KeepOfAllowed(s: string)
    requires AllNicknameChars(s)
    ensures KeepNicknameChars(s) == s
    decreases |s|
  {
    if |s| > 0 {
      KeepOfAllowed(s[1..]);
    }
  }

  /** Feeding a base back in gives the same base. */
  lemma BaseFromIdempotent(raw: Option<string>)
    ensures BaseFrom(Some(BaseFrom(raw))) == BaseFrom(raw)
  {
    var b := BaseFrom(raw);
    assert IsTrimmed(b);
    TrimOfTrimmed(b);
    assert forall i :: 0 <= i < |b| ==> b[i] != '@';
    RemoveSpacesOfClean(b);
    KeepOfAllowed(b);
  }

  /**
   * For an e-mail address whose local part is not empty, only the local
   * part counts: the base is computed from the text before the first '@',
   * whatever the domain is.
   */
  lemma EmailUsesLocalPart(local: string, domain: string)
    requires local != [] && '@' !in local
    requires IsTrimmed(local + "@" + domain)
    ensures BaseFrom(Some(local + "@" + domain)) == Finish(KeepNicknameChars(RemoveSpaces(local)))
  {
    var s := local + "@" + domain;
    TrimOfTrimmed(s);
    assert s[|local|] == '@';
    assert s[..|local|] == local;
    IndexOfFirst(s, '@', |local|);
  }

  /** A character that occurs at `k` and not before it is found at `k`. */
  lemma IndexOfFirst(s: string, c: char, k: nat)
    requires k < |s| && s[k] == c && c !in s[..k]
    ensures IndexOf(s, c) == k
  {
    var at := IndexOf(s, c);
    assert at >= 0;
    forall j | 0 <= j < k
      ensures s[j] != c
    {
      assert s[..k][j] == s[j];
    }
    forall j | 0 <= j < at
      ensures s[j] != c
    {
      assert s[..at][j] == s[j];
    }
  }

  /**
   * A leading '@' is not a separator (`at > 0` fails): the whole string is
   * kept and the '@' is filtered out like any other disallowed character.
   */
  lemma LeadingAtIsDropped()
    ensures BaseFrom(Some("@kim")) == "kim"
  {
    TrimOfTrimmed("@kim");
    assert IndexOf("@kim", '@') == 0;
    assert RemoveSpaces("@kim") == "@kim";
    assert KeepNicknameChars("@kim") == "kim";
  }

  /** Worked case: an address keeps its local part, without the dot. */
  lemma ExampleAddress()
    ensures BaseFrom(Some("j.k@x")) == "jk"
  {
    EmailUsesLocalPart("j.k", "x");
    assert "j.k" + "@" + "x" == "j.k@x";
    RemoveSpacesOfClean("j.k");
    assert KeepNicknameChars("j.k") == "jk";
  }

  /** Worked cases: nothing, or nothing allowed, gives the fallback. */
  lemma ExampleFallbacks()
    ensures BaseFrom(None) == Fallback
    ensures BaseFrom(Some("!!!")) == Fallback
  {
    assert IndexOf(Fallback, '@') == -1;
    RemoveSpacesOfClean(Fallback);
    KeepOfAllowed(Fallback);
    TrimOfTrimmed("!!!");
    assert IndexOf("!!!", '@') == -1;
    RemoveSpacesOfClean("!!!");
    assert KeepNicknameChars("!!!") == "";
  }

  lemma {:induction false} KeepAppend(a: string, b: string)
    ensures KeepNicknameChars(a + b) == KeepNicknameChars(a) + KeepNicknameChars(b)
    decreases |a|
  {
    if |a| > 0 {
      assert (a + b)[1..] == a[1..] + b;
      KeepAppend(a[1..], b);
    } else {
      assert a + b == b;
    }
  }

  /** A positive number's decimal form does not start with 0. */
  lemma {:induction false} LeadingDigit(n: nat)
    requires n >= 1
    ensures |NatToString(n)| > 0 && NatToString(n)[0] != '0'
    decreases n
  {
    if n >= 10 {
      LeadingDigit(n / 10);
    }
  }

  /**
   * `withSuffix`: the base followed by 1000 plus a draw below 9000, so the
   * suffix is exactly four decimal digits, the first of them not zero.
   */
  function WithSuffix(base: string, draw: nat): (r: string)
    requires draw < 9000
    ensures |r| == |base| + 4 && r[..|base|] == base
    ensures AllDigits(r[|base|..]) && r[|base|] != '0'
    ensures DigitsValue(r[|base|..]) == 1000 + draw
  {
    var n := 1000 + draw;
    NatToStringDigits(n);
    assert |NatToString(n)| == 4 by {
      assert |NatToString(n / 10)| == 3 by {
        assert |NatToString(n / 100)| == 2 by {
          assert |NatToString(n / 1000)| == 1;
        }
      }
    }
    LeadingDigit(n);
    var r := base + NatToString(n);
    assert r[|base|..] == NatToString(n);
    r
  }
}
