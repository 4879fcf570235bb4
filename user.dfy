/**
 * The `FullName` value of bot-core/src/user.rs: a first and a last name,
 * parsed from free text by keeping its first two whitespace-separated
 * tokens, and rendered back as "first last".
 */
module User {
  import opened Wrappers

  /** Rust's `char::is_whitespace`: the Unicode White_Space property. */
  predicate IsWhitespace(c: char)
  {
    ('\U{0009}' <= c <= '\U{000D}') || c == ' ' || c == '\U{0085}' || c == '\U{00A0}'
    || c == '\U{1680}' || ('\U{2000}' <= c <= '\U{200A}') || c == '\U{2028}' || c == '\U{2029}'
    || c == '\U{202F}' || c == '\U{205F}' || c == '\U{3000}'
  }

  predicate NoWhitespace(s: string)
  {
    forall i :: 0 <= i < |s| ==> !IsWhitespace(s[i])
  }

  predicate AllWhitespace(s: string)
  {
    forall i :: 0 <= i < |s| ==> IsWhitespace(s[i])
  }

  /** Is `w` a token: a non-empty run of non-whitespace characters? */
  predicate IsToken(w: string)
  {
    w != [] && NoWhitespace(w)
  }

  /** The length of the run of non-whitespace characters that starts `s`. */
  function WordLength(s: string): (n: nat)
    ensures n <= |s|
    ensures NoWhitespace(s[..n])
    ensures n == |s| || IsWhitespace(s[n])
  {
    if s == [] || IsWhitespace(s[0]) then 0
    else
      var n := 1 + WordLength(s[1..]);
      assert s[..n] == [s[0]] + s[1..][..n - 1];
      n
  }

  /** `str::split_whitespace`: the maximal non-whitespace runs of `s`, in order. */
  function SplitWhitespace(s: string): (tokens: seq<string>)
    ensures forall k :: 0 <= k < |tokens| ==> IsToken(tokens[k])
    decreases |s|
  {
    if s == [] then []
    else if IsWhitespace(s[0]) then SplitWhitespace(s[1..])
    else
      var n := WordLength(s);
      [s[..n]] + SplitWhitespace(s[n..])
  }

  /** The tokens written back with one space between consecutive ones. */
  function JoinWithSpaces(tokens: seq<string>): string
  {
    if tokens == [] then ""
    else if |tokens| == 1 then tokens[0]
    else tokens[0] + " " + JoinWithSpaces(tokens[1..])
  }

  /** A first and a last name; the datatype constructor is `FullName::new`. */
  datatype FullName = FullName(first: string, last: string)

  /** `FullName::try_new`: a name only when both parts are present. */
  function TryNew(first: Option<string>, last: Option<string>): Option<FullName>
  {
    match (first, last)
    case (Some(f), Some(l)) => Some(FullName(f, l))
    case _ => None
  }

  /** `FullName::try_from_str`: the first two tokens of `name`, by the source's four-armed match. */
  function TryFromStr(name: string): Option<FullName>
  {
    var tokens := SplitWhitespace(name);
    var first := if |tokens| > 0 then Some(tokens[0]) else None;
    var second := if |tokens| > 1 then Some(tokens[1]) else None;
    match (first, second)
    case (Some(f), Some(l)) => Some(FullName(f, l))
    case (Some(f), None) => Some(FullName(f, ""))
    case (None, Some(l)) => Some(FullName("", l))
    case (None, None) => None
  }

  predicate IsEmpty(n: FullName)
  {
    n.first == "" && n.last == ""
  }

  const UnknownUserName := "Unknown user name"

  function Name(n: FullName): string
  {
    if IsEmpty(n) then UnknownUserName else n.first + " " + n.last
  }

  // ---------------------------------------------------------------------
  // Tokenisation

  lemma {:induction false} WordLengthOfToken(w: string, rest: string)
    requires NoWhitespace(w)
    requires rest == [] || IsWhitespace(rest[0])
    ensures WordLength(w + rest) == |w|
  {
    if w != [] {
      assert (w + rest)[1..] == w[1..] + rest;
      WordLengthOfToken(w[1..], rest);
    } else {
      assert w + rest == rest;
    }
  }

  /** Leading whitespace is skipped. */
  lemma {:induction false} SplitSkipsWhitespace(ws: string, s: string)
    requires AllWhitespace(ws)
    ensures SplitWhitespace(ws + s) == SplitWhitespace(s)
  {
    if ws != [] {
      assert (ws + s)[1..] == ws[1..] + s;
      SplitSkipsWhitespace(ws[1..], s);
    } else {
      assert ws + s == s;
    }
  }

  /** A token followed by the end of the text or by whitespace is split off whole. */
  lemma SplitTokenThenRest(w: string, rest: string)
    requires IsToken(w)
    requires rest == [] || IsWhitespace(rest[0])
    ensures SplitWhitespace(w + rest) == [w] + SplitWhitespace(rest)
  {
    WordLengthOfToken(w, rest);
    assert (w + rest)[..|w|] == w;
    assert (w + rest)[|w|..] == rest;
  }

  /** The text has no token exactly when it is all whitespace (the empty text included). */
  lemma {:induction false} SplitEmptyIff(s: string)
    ensures SplitWhitespace(s) == [] <==> AllWhitespace(s)
    decreases |s|
  {
    if s != [] {
      if IsWhitespace(s[0]) {
        SplitEmptyIff(s[1..]);
        assert AllWhitespace(s) <==> AllWhitespace(s[1..]) by {
          if AllWhitespace(s[1..]) {
            forall i | 0 <= i < |s| ensures IsWhitespace(s[i]) {
              if i > 0 { assert s[i] == s[1..][i - 1]; }
            }
          }
        }
      } else {
        assert !AllWhitespace(s);
      }
    }
  }

  /** Splitting inverts joining: the tokens are recovered exactly. */
  lemma {:induction false} SplitJoin(tokens: seq<string>)
    requires forall k :: 0 <= k < |tokens| ==> IsToken(tokens[k])
    ensures SplitWhitespace(JoinWithSpaces(tokens)) == tokens
  {
    if tokens == [] {
    } else if |tokens| == 1 {
      SplitTokenThenRest(tokens[0], "");
      assert tokens[0] + "" == tokens[0];
    } else {
      var rest := JoinWithSpaces(tokens[1..]);
      assert tokens[0] + " " + rest == tokens[0] + (" " + rest);
      SplitTokenThenRest(tokens[0], " " + rest);
      SplitSkipsWhitespace(" ", rest);
      SplitJoin(tokens[1..]);
    }
  }

  // ---------------------------------------------------------------------
  // try_new

  lemma TryNewSomeIff(first: Option<string>, last: Option<string>)
    ensures TryNew(first, last).Some? <==> first.Some? && last.Some?
    ensures TryNew(first, last).Some? ==>
      TryNew(first, last).value == FullName(first.value, last.value)
  {
  }

  // ---------------------------------------------------------------------
  // try_from_str

  lemma TryFromStrNoneIff(name: string)
    ensures TryFromStr(name) == None <==> AllWhitespace(name)
  {
    SplitEmptyIff(name);
  }

  lemma TryFromStrOneToken(name: string)
    requires |SplitWhitespace(name)| == 1
    ensures TryFromStr(name) == Some(FullName(SplitWhitespace(name)[0], ""))
  {
  }

  /** Two or more tokens: the first two are kept and the rest is dropped. */
  lemma TryFromStrTwoOrMoreTokens(name: string)
    requires |SplitWhitespace(name)| >= 2
    ensures TryFromStr(name) == Some(FullName(SplitWhitespace(name)[0], SplitWhitespace(name)[1]))
  {
  }

  /** A parsed name always has a first part that is a token, so the `(None, Some)` arm is dead. */
  lemma TryFromStrFirstIsToken(name: string)
    requires TryFromStr(name).Some?
    ensures IsToken(TryFromStr(name).value.first)
    ensures NoWhitespace(TryFromStr(name).value.last)
    ensures !IsEmpty(TryFromStr(name).value)
    ensures |SplitWhitespace(name)| >= 1
  {
  }

  /** Two tokens separated by whitespace parse to exactly those two parts. */
  lemma TryFromStrTwoTokens(first: string, gap: string, last: string)
    requires IsToken(first) && IsToken(last)
    requires gap != [] && AllWhitespace(gap)
    ensures TryFromStr(first + gap + last) == Some(FullName(first, last))
  {
    assert first + gap + last == first + (gap + last);
    SplitTokenThenRest(first, gap + last);
    SplitSkipsWhitespace(gap, last);
    SplitTokenThenRest(last, "");
    assert last + "" == last;
  }

  /** Three tokens: the second is the last name and the third is dropped. */
  lemma TryFromStrThreeTokens(first: string, second: string, third: string)
    requires IsToken(first) && IsToken(second) && IsToken(third)
    ensures TryFromStr(first + " " + second + " " + third) == Some(FullName(first, second))
  {
    assert first + " " + second + " " + third == first + (" " + (second + (" " + third)));
    SplitTokenThenRest(first, " " + (second + (" " + third)));
    SplitSkipsWhitespace(" ", second + (" " + third));
    SplitTokenThenRest(second, " " + third);
  }

  /** "Ada King Lovelace" loses its third token. */
  lemma TryFromStrDropsThirdToken(name: string)
    requires name == "Ada King Lovelace"
    ensures TryFromStr(name) == Some(FullName("Ada", "King"))
  {
    assert name == "Ada" + " " + "King" + " " + "Lovelace";
    TryFromStrThreeTokens("Ada", "King", "Lovelace");
  }

  lemma TryFromStrTwoWords(name: string)
    requires name == "Ada Lovelace"
    ensures TryFromStr(name) == Some(FullName("Ada", "Lovelace"))
  {
    assert name == "Ada" + " " + "Lovelace";
    TryFromStrTwoTokens("Ada", " ", "Lovelace");
  }

  lemma TryFromStrOneWord(name: string)
    requires name == "Ada"
    ensures TryFromStr(name) == Some(FullName("Ada", ""))
  {
    SplitTokenThenRest("Ada", "");
    assert "Ada" + "" == "Ada";
  }

  lemma TryFromStrBlank()
    ensures TryFromStr("") == None
    ensures TryFromStr(" \t ") == None
  {
    TryFromStrNoneIff(" \t ");
  }

  // ---------------------------------------------------------------------
  // is_empty and name

  /** With whitespace-free parts, the placeholder is printed exactly for an empty name. */
  lemma NamePlaceholderIff(n: FullName)
    requires NoWhitespace(n.first) && NoWhitespace(n.last)
    ensures Name(n) == UnknownUserName <==> IsEmpty(n)
    ensures !IsEmpty(n) ==> Name(n) == n.first + " " + n.last
  {
    if !IsEmpty(n) {
      var s := n.first + " " + n.last;
      if |s| == |UnknownUserName| {
        var k := if |n.first| < 7 then |n.first| else if |n.first| > 7 then 7 else 12;
        assert s[k] != UnknownUserName[k];
      }
    }
  }

  /** Without that requirement a non-empty name can print as the placeholder. */
  lemma NamePlaceholderCollision()
    ensures var n := FullName("Unknown", "user name");
      !IsEmpty(n) && Name(n) == UnknownUserName
  {
  }

  /** Printing then parsing gives the name back when its parts can survive tokenisation. */
  lemma NameRoundTrip(n: FullName)
    requires IsToken(n.first) && NoWhitespace(n.last)
    ensures TryFromStr(Name(n)) == Some(n)
  {
    var s := n.first + " " + n.last;
    assert Name(n) == s;
    assert s == n.first + (" " + n.last);
    SplitTokenThenRest(n.first, " " + n.last);
    SplitSkipsWhitespace(" ", n.last);
    if n.last == [] {
      SplitEmptyIff(n.last);
    } else {
      SplitTokenThenRest(n.last, "");
      assert n.last + "" == n.last;
    }
  }
}
