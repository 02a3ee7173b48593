/** Extraction of the bearer token: segment 1 of the `Authorization` header split on `' '`. */
module BearerToken {
  import opened Wrappers
  import opened JsValues

  const SPACE := ' '

  /** `s.split(sep)` for a one-character separator: the pieces between consecutive
      separators, always at least one (`"".split(" ")` is `[""]`). */
  function Split(s: string, sep: char): (parts: seq<string>)
    ensures |parts| >= 1
    ensures |parts| == 1 <==> sep !in s
    ensures forall i :: 0 <= i < |parts| ==> sep !in parts[i]
    decreases |s|
  {
    if s == [] then [[]]
    else if s[0] == sep then [[]] + Split(s[1..], sep)
    else
      var rest := Split(s[1..], sep);
      [[s[0]] + rest[0]] + rest[1..]
  }

  /** `parts.join(sep)`. */
  function Join(parts: seq<string>, sep: char): string
    requires |parts| >= 1
    decreases |parts|
  {
    if |parts| == 1 then parts[0] else parts[0] + [sep] + Join(parts[1..], sep)
  }

  /** Splitting loses nothing: joining the pieces gives back the string. */
  lemma {:induction false} JoinSplit(s: string, sep: char)
    ensures Join(Split(s, sep), sep) == s
    decreases |s|
  {
    if s == [] {
    } else if s[0] == sep {
      JoinSplit(s[1..], sep);
      assert s == [sep] + s[1..];
    } else {
      var rest := Split(s[1..], sep);
      JoinSplit(s[1..], sep);
      var parts := [[s[0]] + rest[0]] + rest[1..];
      assert parts == Split(s, sep);
      if |rest| == 1 {
        assert Join(parts, sep) == [s[0]] + rest[0];
      } else {
        assert parts[1..] == rest[1..];
        assert Join(parts, sep) == [s[0]] + rest[0] + [sep] + Join(rest[1..], sep);
        assert Join(rest, sep) == rest[0] + [sep] + Join(rest[1..], sep);
      }
      assert s == [s[0]] + s[1..];
    }
  }

  /** A separator-free prefix is glued onto the first piece of what follows it. */
  lemma {:induction false} SplitPrefix(w: string, s: string, sep: char)
    requires sep !in w
    ensures Split(w + s, sep) == [w + Split(s, sep)[0]] + Split(s, sep)[1..]
    decreases |w|
  {
    if w != [] {
      SplitPrefix(w[1..], s, sep);
      assert (w + s)[0] == w[0] && (w + s)[1..] == w[1..] + s;
      assert [w[0]] + (w[1..] + Split(s, sep)[0]) == w + Split(s, sep)[0];
    } else {
      var parts := Split(s, sep);
      assert w + s == s && w + parts[0] == parts[0];
      assert parts == [parts[0]] + parts[1..];
    }
  }

  /** A separator starts a new, initially empty, piece. */
  lemma SplitAtSeparator(s: string, sep: char)
    ensures Split([sep] + s, sep) == [[]] + Split(s, sep)
  {
    assert ([sep] + s)[1..] == s;
  }

  /** Joining separator-free pieces and splitting again gives back the pieces. */
  lemma {:induction false} SplitJoin(parts: seq<string>, sep: char)
    requires |parts| >= 1
    requires forall i :: 0 <= i < |parts| ==> sep !in parts[i]
    ensures Split(Join(parts, sep), sep) == parts
    decreases |parts|
  {
    if |parts| == 1 {
      SplitPrefix(parts[0], [], sep);
      assert parts[0] + [] == parts[0];
    } else {
      var tail := Join(parts[1..], sep);
      assert Join(parts, sep) == parts[0] + ([sep] + tail);
      SplitPrefix(parts[0], [sep] + tail, sep);
      SplitAtSeparator(tail, sep);
      SplitJoin(parts[1..], sep);
      assert parts[0] + [] == parts[0];
      assert parts == [parts[0]] + parts[1..];
    }
  }

  /** `authorization?.split(' ')[1]`: `None` when the header is absent or holds no space. */
  function Candidate(authorization: Option<string>): (token: Option<string>)
    ensures token.Some? <==> authorization.Some? && SPACE in authorization.value
    ensures token.Some? ==> SPACE !in token.value
  {
    match authorization
    case None => None
    case Some(h) =>
      var parts := Split(h, SPACE);
      if |parts| >= 2 then Some(parts[1]) else None
  }

  /** The handler asks for a token when the candidate is falsy: absent or empty. */
  predicate Missing(authorization: Option<string>) {
    !Present(Candidate(authorization))
  }

  /** For `scheme + " " + token` followed by nothing or by a space, the candidate is `token`;
      the scheme itself is not inspected. */
  lemma TokenAfterFirstSpace(scheme: string, token: string, tail: string)
    requires SPACE !in scheme && SPACE !in token
    requires tail == [] || tail[0] == SPACE
    ensures Candidate(Some(scheme + [SPACE] + token + tail)) == Some(token)
  {
    var h := scheme + [SPACE] + token + tail;
    assert h == scheme + ([SPACE] + (token + tail));
    SplitPrefix(scheme, [SPACE] + (token + tail), SPACE);
    SplitAtSeparator(token + tail, SPACE);
    SplitPrefix(token, tail, SPACE);
    if tail == [] {
      assert Split(tail, SPACE) == [[]];
    } else {
      assert tail == [SPACE] + tail[1..];
      SplitAtSeparator(tail[1..], SPACE);
    }
    assert token + [] == token;
    assert Split(h, SPACE)[1] == token;
  }

  /** A well-formed `Bearer <token>` header yields the token and is not missing. */
  lemma BearerHeader(token: string)
    requires token != "" && SPACE !in token
    ensures Candidate(Some("Bearer " + token)) == Some(token)
    ensures !Missing(Some("Bearer " + token))
  {
    assert "Bearer " + token == "Bearer" + [SPACE] + token + [];
    TokenAfterFirstSpace("Bearer", token, []);
  }

  /** The three ways of missing the token: no header, a header without a space, and an empty
      second piece as in `"Bearer  x"`. */
  lemma MissingCases(h: string, scheme: string, rest: string)
    requires SPACE !in h && SPACE !in scheme
    ensures Missing(None)
    ensures Missing(Some(h))
    ensures Missing(Some(scheme + [SPACE, SPACE] + rest))
  {
    assert scheme + [SPACE, SPACE] + rest == scheme + [SPACE] + [] + ([SPACE] + rest);
    TokenAfterFirstSpace(scheme, [], [SPACE] + rest);
  }
}
