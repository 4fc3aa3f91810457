/** Secrets removed from engine output, chunk by chunk, before only a bounded tail is kept. */
module Redaction {
  const MARKER := "***"

  // ---- The whole-text meaning ----

  /** Length of the longest secret, of at most n characters, that starts the text; 0 when none does. */
  function LongestUpTo(secrets: set<string>, text: string, n: nat): (length: nat)
    requires n <= |text|
    ensures length <= n && (length > 0 ==> text[..length] in secrets)
    ensures forall k | length < k <= n :: text[..k] !in secrets
  {
    if n == 0 then 0 else if text[..n] in secrets then n else LongestUpTo(secrets, text, n - 1)
  }

  function Longest(secrets: set<string>, text: string): (length: nat)
    ensures length <= |text|
  {
    LongestUpTo(secrets, text, |text|)
  }

  /** From left to right, the longest secret at each place gives way to the marker. */
  function Redact(secrets: set<string>, text: string): string
    decreases |text|
  {
    if text == "" then ""
    else
      var n := Longest(secrets, text);
      if n > 0 then MARKER + Redact(secrets, text[n..]) else [text[0]] + Redact(secrets, text[1..])
  }

  // ---- The same meaning, piece by piece ----

  /** A piece of text: a character that stays, or a secret that goes. */
  datatype Piece = Kept(c: char) | Hidden(secret: string)

  function Original(pieces: seq<Piece>): string {
    if pieces == [] then "" else (match pieces[0] case Kept(c) => [c] case Hidden(s) => s) + Original(pieces[1..])
  }

  function Published(pieces: seq<Piece>): string {
    if pieces == [] then "" else (match pieces[0] case Kept(c) => [c] case Hidden(_) => "***") + Published(pieces[1..])
  }

  /** A secret goes wherever one starts and no other has begun before, and no longer one starts there. */
  ghost predicate LongestFirst(secrets: set<string>, pieces: seq<Piece>) {
    pieces != [] ==>
      && (match pieces[0]
          case Kept(_) => forall s | s in secrets && s != "" :: !(s <= Original(pieces))
          case Hidden(secret) => secret in secrets && secret != "" &&
                                 forall s | s in secrets && s <= Original(pieces) :: |s| <= |secret|)
      && LongestFirst(secrets, pieces[1..])
  }

  lemma LongestExact(secrets: set<string>, text: string, secret: string)
    requires secret in secrets && secret != "" && secret <= text
    requires forall s | s in secrets && s <= text :: |s| <= |secret|
    ensures Longest(secrets, text) == |secret|
  {
    var n := Longest(secrets, text);
    assert text[..|secret|] == secret;
    assert n > 0 ==> text[..n] in secrets && text[..n] <= text;
  }

  lemma NothingStarts(secrets: set<string>, text: string)
    requires forall s | s in secrets && s != "" :: !(s <= text)
    ensures Longest(secrets, text) == 0
  {
    var found := text[..Longest(secrets, text)];
    assert found <= text && (found != "" ==> found in secrets);
  }

  /** However a text is cut into pieces, longest secret first, redaction publishes exactly those pieces. */
  lemma {:induction false} RedactsPieces(secrets: set<string>, pieces: seq<Piece>)
    requires LongestFirst(secrets, pieces)
    ensures Redact(secrets, Original(pieces)) == Published(pieces)
  {
    if pieces != [] {
      var text, rest := Original(pieces), Original(pieces[1..]);
      RedactsPieces(secrets, pieces[1..]);
      match pieces[0] {
        case Kept(c) =>
          NothingStarts(secrets, text);
          assert text[1..] == rest;
        case Hidden(secret) =>
          LongestExact(secrets, text, secret);
          assert text[|secret|..] == rest;
      }
    }
  }

  /** And every text can be cut that way. */
  lemma {:induction false} CutIntoPieces(secrets: set<string>, text: string) returns (pieces: seq<Piece>)
    ensures Original(pieces) == text && LongestFirst(secrets, pieces)
    decreases |text|
  {
    pieces := [];
    if text != "" {
      var n := Longest(secrets, text);
      var tail := CutIntoPieces(secrets, text[if n > 0 then n else 1..]);
      pieces := [if n > 0 then Hidden(text[..n]) else Kept(text[0])] + tail;
      assert pieces[1..] == tail;
      assert Original(pieces) == text;
      forall s | s in secrets && s <= text ensures |s| <= n { assert text[..|s|] == s; }
    }
  }

  // ---- No secret survives ----

  predicate OccursAt(word: string, text: string, p: nat) {
    p + |word| <= |text| && text[p..p + |word|] == word
  }

  predicate Contains(word: string, part: string) {
    exists p: nat :: p <= |word| && OccursAt(part, word, p)
  }

  /** What a secret must not have in common with the marker: its character at either end, or the marker itself. */
  predicate Safe(secret: string) {
    secret != "" && secret[0] != '*' && secret[|secret| - 1] != '*' && !Contains(secret, MARKER)
  }

  /** Redacted text that starts with a word like the end of a safe secret was copied from text that starts with it. */
  lemma {:induction false} CopiedPrefix(secrets: set<string>, text: string, word: string)
    requires (word == "" || word[|word| - 1] != '*') && !Contains(word, MARKER)
    requires OccursAt(word, Redact(secrets, text), 0)
    ensures OccursAt(word, text, 0)
    decreases |word|
  {
    if word != "" {
      var out := Redact(secrets, text);
      assert forall i | 0 <= i < |word| :: out[i] == out[0..|word|][i] == word[i];
      if Longest(secrets, text) > 0 {
        StartsWithMarker(word, out);
      } else {
        var rest := Redact(secrets, text[1..]);
        assert rest[..|word| - 1] == out[0..|word|][1..] == word[1..];
        TailHasNoMarker(word);
        CopiedPrefix(secrets, text[1..], word[1..]);
        assert text[..|word|] == [text[0]] + text[1..][..|word| - 1];
      }
    }
  }

  lemma StartsWithMarker(word: string, out: string)
    requires word != "" && word[|word| - 1] != '*' && !Contains(word, MARKER)
    requires |out| >= |MARKER| && out[..|MARKER|] == MARKER && |word| <= |out|
    ensures exists i :: 0 <= i < |word| && out[i] != word[i]
  {
    assert out[0] == '*' && out[1] == '*' && out[2] == '*';
    if |word| >= 3 {
      assert !OccursAt(MARKER, word, 0);
      assert word[0..3] == [word[0], word[1], word[2]];
    }
  }

  lemma TailHasNoMarker(word: string)
    requires word != "" && !Contains(word, MARKER)
    ensures !Contains(word[1..], MARKER)
  {
    forall p: nat | OccursAt(MARKER, word[1..], p) ensures OccursAt(MARKER, word, p + 1) {
      assert word[1..][p..p + 3] == word[p + 1..p + 4];
    }
  }

  lemma PrefixIsFound(secrets: set<string>, text: string, word: string)
    requires word in secrets && word != "" && OccursAt(word, text, 0)
    ensures Longest(secrets, text) > 0
  {
    assert text[..|word|] == word;
  }

  lemma FirstCharacter(word: string, text: string, p: nat)
    requires OccursAt(word, text, p) && word != ""
    ensures text[p] == word[0]
  {
    assert text[p..p + |word|][0] == text[p];
  }

  /** A safe secret occurs nowhere in redacted text, whatever the other secrets are. */
  lemma {:induction false} NoSecretLeft(secrets: set<string>, text: string, secret: string, p: nat)
    requires secret in secrets && Safe(secret)
    ensures !OccursAt(secret, Redact(secrets, text), p)
    decreases |text|
  {
    if text != "" {
      var n := Longest(secrets, text);
      var piece, left := if n > 0 then MARKER else [text[0]], text[if n > 0 then n else 1..];
      var rest := Redact(secrets, left);
      assert Redact(secrets, text) == piece + rest;
      if p >= |piece| {
        OccursLater(secret, piece, rest, p);
        NoSecretLeft(secrets, left, secret, p - |piece|);
      } else if n > 0 {
        NotInMarker(secret, rest, p);
      } else if OccursAt(secret, Redact(secrets, text), 0) {
        CopiedPrefix(secrets, text, secret);
        PrefixIsFound(secrets, text, secret);
      }
    }
  }

  lemma OccursLater(word: string, piece: string, rest: string, p: nat)
    requires p >= |piece|
    ensures OccursAt(word, piece + rest, p) ==> OccursAt(word, rest, p - |piece|)
  {
    if OccursAt(word, piece + rest, p) {
      assert (piece + rest)[p..p + |word|] == rest[p - |piece|..p - |piece| + |word|];
    }
  }

  lemma NotInMarker(word: string, rest: string, p: nat)
    requires p < |MARKER| && word != "" && word[0] != '*'
    ensures !OccursAt(word, MARKER + rest, p)
  {
    assert (MARKER + rest)[p] == '*';
    if OccursAt(word, MARKER + rest, p) { FirstCharacter(word, MARKER + rest, p); }
  }

  // ---- Every other secret can be put back by its own redaction ----

  /** Text in which no secret starts is copied. */
  lemma {:induction false} CopiedUntil(secrets: set<string>, text: string, n: nat)
    requires n <= |text| && forall i: nat | i < n :: Longest(secrets, text[i..]) == 0
    ensures Redact(secrets, text) == text[..n] + Redact(secrets, text[n..])
  {
    if n > 0 {
      assert text[0..] == text;
      forall i: nat | i < n - 1 ensures Longest(secrets, text[1..][i..]) == 0 { assert text[1..][i..] == text[i + 1..]; }
      CopiedUntil(secrets, text[1..], n - 1);
      assert text[1..][n - 1..] == text[n..];
      assert text[..n] == [text[0]] + text[1..][..n - 1];
    } else {
      assert text[0..] == text;
    }
  }

  lemma OneSecret(s: string, text: string)
    requires s != ""
    ensures Longest({s}, text) == if OccursAt(s, text, 0) then |s| else 0
  {
    if OccursAt(s, text, 0) { PrefixIsFound({s}, text, s); }
    var n := Longest({s}, text);
    assert n > 0 ==> text[..n] == s && text[0..|s|] == s;
  }

  lemma ShortIsCopied(s: string, text: string)
    requires |text| < |s|
    ensures Redact({s}, text) == text
  {
    forall i: nat | i < |text| ensures Longest({s}, text[i..]) == 0 { OneSecret(s, text[i..]); }
    CopiedUntil({s}, text, |text|);
    assert text[..|text|] == text && text[|text|..] == "";
  }

  /** One occurrence with nothing before it that matches and too little after it. */
  lemma OneOccurrence(s: string, front: string, back: string)
    requires s != "" && |back| < |s|
    requires forall i: nat | i < |front| :: !OccursAt(s, (front + s + back)[i..], 0)
    ensures Redact({s}, front + s + back) == front + MARKER + back
  {
    CopiedFront(s, front + s + back, |front|);
    Parts(front, s, back);
    FirstMatch(s, back);
    Regroup(front, MARKER, back);
  }

  lemma CopiedFront(s: string, text: string, n: nat)
    requires s != "" && n <= |text| && forall i: nat | i < n :: !OccursAt(s, text[i..], 0)
    ensures Redact({s}, text) == text[..n] + Redact({s}, text[n..])
  {
    forall i: nat | i < n ensures Longest({s}, text[i..]) == 0 { OneSecret(s, text[i..]); }
    CopiedUntil({s}, text, n);
  }

  lemma Parts(front: string, s: string, back: string)
    ensures (front + s + back)[..|front|] == front && (front + s + back)[|front|..] == s + back
  {
  }

  lemma FirstMatch(s: string, back: string)
    requires s != "" && |back| < |s|
    ensures Redact({s}, s + back) == MARKER + back
  {
    assert (s + back)[0..|s|] == s && (s + back)[|s|..] == back;
    OneSecret(s, s + back);
    ShortIsCopied(s, back);
  }

  /** A secret that starts with the marker's character comes back from itself followed by its own tail. */
  lemma StarFirst(s: string)
    requires s != "" && s[0] == '*'
    ensures OccursAt(s, Redact({s}, s + s[1..]), 2)
  {
    FirstMatch(s, s[1..]);
    MarkerThenTail(s);
  }

  lemma MarkerThenTail(s: string)
    requires s != "" && s[0] == '*'
    ensures OccursAt(s, MARKER + s[1..], 2)
  {
    var out := MARKER + s[1..];
    assert |out| == |s| + 2;
    forall k | 0 <= k < |s| ensures out[2..2 + |s|][k] == s[k] {}
  }

  lemma NoEarlyMatch(s: string, i: nat)
    requires i < |s| - 1 && s[0] != '*' && s[|s| - 1] == '*'
    ensures !OccursAt(s, (s[..|s| - 1] + s)[i..], 0)
  {
    var text := s[..|s| - 1] + s;
    assert text[i] == s[i] && text[|s| - 1 + i] == s[i];
    if OccursAt(s, text[i..], 0) { SameCharacters(s, text, i); }
  }

  /** One that only ends with it comes back from itself preceded by its own front. */
  lemma StarLast(s: string)
    requires s != "" && s[0] != '*' && s[|s| - 1] == '*'
    ensures OccursAt(s, Redact({s}, s[..|s| - 1] + s), 0)
  {
    var front := s[..|s| - 1];
    assert front + s + "" == front + s;
    forall i: nat | i < |front| ensures !OccursAt(s, (front + s + "")[i..], 0) { NoEarlyMatch(s, i); }
    OneOccurrence(s, front, "");
    FrontThenMarker(s);
  }

  lemma FrontThenMarker(s: string)
    requires s != "" && s[|s| - 1] == '*'
    ensures OccursAt(s, s[..|s| - 1] + MARKER + "", 0)
  {
    var out := s[..|s| - 1] + MARKER + "";
    assert |out| == |s| + 2;
    forall k | 0 <= k < |s| ensures out[0..|s|][k] == s[k] {}
  }

  lemma SameCharacters(word: string, text: string, i: nat)
    requires i <= |text| && OccursAt(word, text[i..], 0)
    ensures i + |word| <= |text| && forall k | 0 <= k < |word| :: text[i + k] == word[k]
  {
    forall k | 0 <= k < |word| ensures text[i + k] == word[k] { assert text[i..][0..|word|][k] == text[i + k]; }
  }

  lemma FirstOccurrence(word: string, part: string, p: nat) returns (first: nat)
    requires OccursAt(part, word, p)
    ensures OccursAt(part, word, first) && forall q: nat | q < first :: !OccursAt(part, word, q)
  {
    if exists q: nat :: q < p && OccursAt(part, word, q) {
      var q: nat :| q < p && OccursAt(part, word, q);
      first := FirstOccurrence(word, part, q);
    } else {
      first := p;
    }
  }

  lemma ThreeStars(s: string, i: nat)
    requires i + 3 <= |s| && s[i] == s[i + 1] == s[i + 2] == '*'
    ensures OccursAt(MARKER, s, i)
  {
    assert s[i..i + 3] == [s[i], s[i + 1], s[i + 2]];
  }

  lemma NoMatchBeforeMarker(s: string, m: nat, i: nat)
    requires OccursAt(MARKER, s, m) && i < m && !OccursAt(MARKER, s, i)
    ensures !OccursAt(s, (s[..m] + s + s[m + 3..])[i..], 0)
  {
    var text := s[..m] + s + s[m + 3..];
    var inside := s[m..m + 3];
    assert inside[0] == s[m] && inside[1] == s[m + 1] && inside[2] == s[m + 2];
    assert text[m + i] == s[i] && text[m + (i + 1)] == s[i + 1] && text[m + (i + 2)] == s[i + 2];
    if OccursAt(s, text[i..], 0) {
      SameCharacters(s, text, i);
      assert text[i + m] == s[m] && text[i + (m + 1)] == s[m + 1] && text[i + (m + 2)] == s[m + 2];
      ThreeStars(s, i);
    }
  }

  /** One that contains the marker comes back when it stands in place of its own marker. */
  lemma MarkerInside(s: string, m: nat)
    requires OccursAt(MARKER, s, m) && forall q: nat | q < m :: !OccursAt(MARKER, s, q)
    ensures OccursAt(s, Redact({s}, s[..m] + s + s[m + 3..]), 0)
  {
    var front, back := s[..m], s[m + 3..];
    forall i: nat | i < m ensures !OccursAt(s, (front + s + back)[i..], 0) { NoMatchBeforeMarker(s, m, i); }
    OneOccurrence(s, front, back);
    assert s == front + MARKER + back;
    assert s[0..|s|] == s;
  }

  /** For every unsafe secret there is a text whose redaction shows it. */
  lemma UnsafeIsPutBack(s: string) returns (text: string, p: nat)
    requires s != "" && !Safe(s)
    ensures OccursAt(s, Redact({s}, text), p)
  {
    if s[0] == '*' {
      text, p := s + s[1..], 2;
      StarFirst(s);
    } else if s[|s| - 1] == '*' {
      text, p := s[..|s| - 1] + s, 0;
      StarLast(s);
    } else {
      var q :| OccursAt(MARKER, s, q);
      var m := FirstOccurrence(s, MARKER, q);
      text, p := s[..m] + s + s[m + 3..], 0;
      MarkerInside(s, m);
    }
  }

  ghost predicate NeverShown(secrets: set<string>, secret: string) {
    forall text, p: nat :: !OccursAt(secret, Redact(secrets, text), p)
  }

  /** Redaction hides a secret in every text exactly when the secret is safe; being safe also protects it in any
      company. */
  lemma HiddenIffSafe(s: string)
    requires s != ""
    ensures NeverShown({s}, s) <==> Safe(s)
    ensures Safe(s) <==> forall secrets: set<string> | s in secrets :: NeverShown(secrets, s)
  {
    if Safe(s) {
      forall secrets: set<string> | s in secrets ensures NeverShown(secrets, s) {
        forall text, p: nat ensures !OccursAt(s, Redact(secrets, text), p) { NoSecretLeft(secrets, text, s, p); }
      }
      assert s in {s};
    } else {
      var text, p := UnsafeIsPutBack(s);
      assert !NeverShown({s}, s) && s in {s};
    }
  }

  // ---- Bytes ----

  type byte = n: nat | n < 256

  /** UTF-8: table 3-6 of the Unicode standard. */
  function EncodeChar(c: char): seq<byte> {
    var n := c as int;
    if n < 0x80 then [n]
    else if n < 0x800 then [0xC0 + n / 0x40, 0x80 + n % 0x40]
    else if n < 0x1_0000 then [0xE0 + n / 0x1000, 0x80 + n / 0x40 % 0x40, 0x80 + n % 0x40]
    else [0xF0 + n / 0x4_0000, 0x80 + n / 0x1000 % 0x40, 0x80 + n / 0x40 % 0x40, 0x80 + n % 0x40]
  }

  function Each(encoder: char -> seq<byte>, text: string): seq<byte> {
    if text == "" then [] else encoder(text[0]) + Each(encoder, text[1..])
  }

  function Encode(text: string): seq<byte> {
    Each(EncodeChar, text)
  }

  lemma {:induction false} EachJoins(encoder: char -> seq<byte>, a: string, b: string)
    ensures Each(encoder, a + b) == Each(encoder, a) + Each(encoder, b)
  {
    if a == "" {
      assert a + b == b;
    } else {
      EachJoins(encoder, a[1..], b);
      assert (a + b)[1..] == a[1..] + b && (a + b)[0] == a[0];
      Regroup(encoder(a[0]), Each(encoder, a[1..]), Each(encoder, b));
    }
  }

  /** The last bytes, as many as there may be. */
  function Tail(bytes: seq<byte>, max: nat): seq<byte> {
    if |bytes| > max then bytes[|bytes| - max..] else bytes
  }

  /** Continuously keeps the bounded tail of everything appended. */
  class TailBuffer {
    const maxBytes: nat
    var data: seq<byte>
    var truncated: bool
    ghost var written: seq<byte>

    ghost predicate Valid()
      reads this
    {
      data == Tail(written, maxBytes) && (truncated <==> |written| > maxBytes)
    }

    constructor (maxBytes: nat)
      ensures Valid() && written == [] && this.maxBytes == maxBytes
    {
      this.maxBytes, data, truncated, written := maxBytes, [], false, [];
    }

    method Append(chunk: seq<byte>)
      requires Valid()
      modifies this
      ensures Valid() && written == old(written) + chunk
    {
      written := written + chunk;
      data := data + chunk;
      if |data| > maxBytes {
        data := data[|data| - maxBytes..];
        truncated := true;
      }
    }
  }

  // ---- Streaming ----

  predicate Descending(secrets: seq<string>) {
    forall i, k | 0 <= i < k < |secrets| :: |secrets[i]| >= |secrets[k]|
  }

  function Insert(secret: string, sorted: seq<string>): (longer: seq<string>)
    requires Descending(sorted)
    ensures Descending(longer) && forall s :: s in longer <==> s == secret || s in sorted
  {
    if sorted == [] || |secret| >= |sorted[0]| then [secret] + sorted
    else
      var rest := Insert(secret, sorted[1..]);
      assert sorted == [sorted[0]] + sorted[1..];
      forall i | 0 <= i < |rest| ensures |rest[i]| <= |sorted[0]| { assert rest[i] in rest; }
      [sorted[0]] + rest
  }

  method SortByLength(secrets: set<string>) returns (sorted: seq<string>)
    ensures Descending(sorted) && forall s :: s in sorted <==> s in secrets
  {
    sorted := [];
    var left := secrets;
    while left != {}
      invariant Descending(sorted) && left <= secrets && forall s :: s in sorted <==> s in secrets - left
      decreases left
    {
      var secret :| secret in left;
      sorted := Insert(secret, sorted);
      left := left - {secret};
    }
  }

  /** The first of the sorted secrets that starts the text is the longest one. */
  method FirstAt(secrets: seq<string>, ghost all: set<string>, text: string, index: nat) returns (length: nat)
    requires index <= |text| && Descending(secrets) && forall s :: s in secrets <==> s in all
    requires "" !in all
    ensures length == Longest(all, text[index..])
  {
    var i := 0;
    while i < |secrets|
      invariant 0 <= i <= |secrets|
      invariant forall k | 0 <= k < i :: !(secrets[k] <= text[index..])
    {
      if secrets[i] <= text[index..] {
        ghost var n := Longest(all, text[index..]);
        assert text[index..][..|secrets[i]|] == secrets[i] && secrets[i] in all;
        ghost var k :| 0 <= k < |secrets| && secrets[k] == text[index..][..n];
        return |secrets[i]|;
      }
      i := i + 1;
    }
    NoneStarts(secrets, all, text[index..]);
    return 0;
  }

  lemma NoneStarts(secrets: seq<string>, all: set<string>, text: string)
    requires forall s :: s in secrets <==> s in all
    requires forall k | 0 <= k < |secrets| :: !(secrets[k] <= text)
    ensures Longest(all, text) == 0
  {
    var n := Longest(all, text);
    assert text[..n] <= text;
    forall s | s in all ensures !(s <= text) {
      assert s in secrets;
    }
  }

  // ---- The streaming redactor ----

  /** What was emitted, and what the held-back suffix will become, agree with the redaction of everything fed,
      whatever text follows; once the text has ended nothing follows. */
  ghost predicate Agrees(all: set<string>, fed: string, emitted: string, pending: string, ended: bool) {
    forall rest: string | ended ==> rest == "" :: ContinuesWith(all, fed, emitted, pending, rest)
  }

  predicate ContinuesWith(all: set<string>, fed: string, emitted: string, pending: string, rest: string) {
    Redact(all, fed + rest) == emitted + Redact(all, pending + rest)
  }

  /** Whether a secret starts here is already decided when the longest secret fits into the text in hand. */
  lemma Decided(all: set<string>, text: string, rest: string, longest: nat)
    requires forall s | s in all :: |s| <= longest
    requires rest == "" || longest <= |text|
    ensures Longest(all, text + rest) == Longest(all, text)
  {
    var n, m := Longest(all, text + rest), Longest(all, text);
    assert text + "" == text;
    assert n <= |text|;
    if n > 0 { assert (text + rest)[..n] == text[..n]; }
    if m > 0 { assert (text + rest)[..m] == text[..m]; }
  }

  /** One turn of the loop: a whole secret becomes the marker, any other character passes. */
  lemma StepAgrees(all: set<string>, fed: string, emitted: string, pending: string, ended: bool, longest: nat)
    requires Agrees(all, fed, emitted, pending, ended) && pending != "" && (ended || longest <= |pending|)
    requires forall s | s in all :: |s| <= longest
    ensures var n := Longest(all, pending);
      if n > 0 then Agrees(all, fed, emitted + MARKER, pending[n..], ended)
      else Agrees(all, fed, emitted + [pending[0]], pending[1..], ended)
  {
    var n := Longest(all, pending);
    var piece, left := if n > 0 then MARKER else [pending[0]], pending[if n > 0 then n else 1..];
    forall rest: string | ended ==> rest == "" ensures ContinuesWith(all, fed, emitted + piece, left, rest) {
      assert ContinuesWith(all, fed, emitted, pending, rest);
      Decided(all, pending, rest, longest);
      assert (pending + rest)[if n > 0 then n else 1..] == left + rest;
      assert emitted + (piece + Redact(all, left + rest)) == emitted + piece + Redact(all, left + rest);
    }
  }

  lemma FedAgrees(all: set<string>, fed: string, emitted: string, pending: string, text: string, ended: bool)
    requires Agrees(all, fed, emitted, pending, false)
    ensures Agrees(all, fed + text, emitted, pending + text, ended)
  {
    forall rest: string | ended ==> rest == "" ensures ContinuesWith(all, fed + text, emitted, pending + text, rest) {
      Regroup(fed, text, rest);
      Regroup(pending, text, rest);
      assert ContinuesWith(all, fed, emitted, pending, text + rest);
    }
  }

  function Joined(chunks: seq<string>): string {
    if chunks == [] then "" else Joined(chunks[..|chunks| - 1]) + chunks[|chunks| - 1]
  }

  function FedUpTo(before: string, chunks: seq<string>, i: nat): string
    requires i <= |chunks|
  {
    before + Joined(chunks[..i])
  }

  lemma JoinedMore(before: string, chunks: seq<string>, i: nat)
    requires i < |chunks|
    ensures FedUpTo(before, chunks, i + 1) == FedUpTo(before, chunks, i) + chunks[i]
  {
    assert chunks[..i + 1][..i] == chunks[..i];
    Regroup(before, Joined(chunks[..i]), chunks[i]);
  }

  lemma Regroup<T>(a: seq<T>, b: seq<T>, c: seq<T>)
    ensures a + (b + c) == a + b + c
  {}

  lemma JoinedEnds(before: string, chunks: seq<string>)
    ensures FedUpTo(before, chunks, 0) == before && FedUpTo(before, chunks, |chunks|) == before + Joined(chunks)
  {
    assert chunks[..|chunks|] == chunks;
  }

  lemma NothingFedNothingOut(all: set<string>, fed: string, emitted: string, pending: string)
    requires Agrees(all, fed, emitted, pending, false)
    ensures fed == "" ==> emitted == ""
  {
    assert ContinuesWith(all, fed, emitted, pending, "");
    assert fed + "" == fed;
  }

  class RedactingTailBuffer {
    const tail: TailBuffer
    const secrets: seq<string>
    const maxSecretLength: nat
    var pending: string
    ghost const all: set<string>
    ghost var fed: string       // text since the last end of stream
    ghost var emitted: string   // its redacted output so far
    ghost var past: string      // redacted output of the streams that ended before

    ghost predicate Valid()
      reads this, tail
    {
      && tail.Valid() && tail.written == Encode(past + emitted)
      && "" !in all && Descending(secrets) && (forall s :: s in secrets <==> s in all)
      && maxSecretLength == (if secrets == [] then 0 else |secrets[0]|)
      && Agrees(all, fed, emitted, pending, false)
      && (pending == "" || |pending| < maxSecretLength)
    }

    constructor (maxBytes: nat, all: set<string>)
      requires "" !in all
      ensures Valid() && fresh(tail) && this.all == all && tail.maxBytes == maxBytes
      ensures past == emitted == fed == pending == ""
    {
      var sorted := SortByLength(all);
      tail := new TailBuffer(maxBytes);
      secrets, this.all := sorted, all;
      maxSecretLength := if sorted == [] then 0 else |sorted[0]|;
      pending, fed, emitted, past := "", "", "", "";
      new;
    }

    method Process(text: string, final: bool)
      requires Valid()
      modifies this`pending, this`fed, this`emitted, tail
      ensures tail.Valid() && tail.written == Encode(past + emitted)
      ensures fed == old(fed) + text && Agrees(all, fed, emitted, pending, final)
      ensures if final then pending == "" else pending == "" || |pending| < maxSecretLength
    {
      var combined := pending + text;
      var cutoff := if final || maxSecretLength == 0 then |combined|
                    else if |combined| - maxSecretLength + 1 > 0 then |combined| - maxSecretLength + 1 else 0;
      FedAgrees(all, fed, emitted, pending, text, final);
      fed := fed + text;
      forall s | s in all ensures |s| <= maxSecretLength { assert s in secrets; }
      var output, index := Scan(secrets, all, maxSecretLength, fed, emitted, combined, cutoff, final);
      pending := combined[index..];
      EncodeMore(past, emitted, output);
      emitted := emitted + output;
      if output != "" { tail.Append(Encode(output)); }
    }

    method Feed(text: string)
      requires Valid()
      modifies this`pending, this`fed, this`emitted, tail
      ensures Valid() && fed == old(fed) + text
    {
      Process(text, false);
    }

    method FeedAll(chunks: seq<string>)
      requires Valid()
      modifies this`pending, this`fed, this`emitted, tail
      ensures Valid() && fed == old(fed) + Joined(chunks)
    {
      var i := 0;
      ghost var before := fed;
      JoinedEnds(before, chunks);
      while i < |chunks|
        invariant 0 <= i <= |chunks| && Valid() && fed == FedUpTo(before, chunks, i)
      {
        JoinedMore(before, chunks, i);
        Feed(chunks[i]);
        i := i + 1;
      }
    }

    /** At the end of the stream everything is out; ending it again adds nothing. */
    method Finish()
      requires Valid()
      modifies this, tail
      ensures Valid() && past == old(past) + Redact(all, old(fed)) && fed == emitted == pending == ""
      ensures tail.data == Tail(Encode(past), tail.maxBytes)
      ensures tail.truncated <==> |Encode(past)| > tail.maxBytes
      ensures old(fed) == "" ==> tail.data == old(tail.data) && tail.truncated == old(tail.truncated)
    {
      NothingFedNothingOut(all, fed, emitted, pending);
      assert past + "" == past;
      Process("", true);
      assert ContinuesWith(all, fed, emitted, pending, "");
      assert fed + "" == fed && pending + "" == "" == pending;
      assert emitted + Redact(all, "") == emitted;
      past := past + emitted;
      fed, emitted := "", "";
      assert past + "" == past;
    }
  }

  lemma EncodeMore(past: string, emitted: string, output: string)
    ensures Encode(past + (emitted + output)) == Encode(past + emitted) + Encode(output)
    ensures output == "" ==> Encode(output) == []
  {
    EachJoins(EncodeChar, past + emitted, output);
    assert past + emitted + output == past + (emitted + output);
  }

  method Scan(secrets: seq<string>, ghost all: set<string>, ghost longest: nat, ghost fed: string, ghost emitted: string,
              combined: string, cutoff: nat, ghost ended: bool)
    returns (output: string, index: nat)
    requires "" !in all && Descending(secrets) && (forall s :: s in secrets <==> s in all)
    requires (forall s | s in all :: |s| <= longest) && cutoff <= |combined|
    requires ended || cutoff == 0 || cutoff + longest <= |combined| + 1
    requires Agrees(all, fed, emitted, combined, ended)
    ensures cutoff <= index <= |combined|
    ensures Agrees(all, fed, emitted + output, combined[index..], ended)
  {
    output, index := "", 0;
    assert combined[0..] == combined && emitted + output == emitted;
    while index < cutoff
      invariant 0 <= index <= |combined|
      invariant Agrees(all, fed, emitted + output, combined[index..], ended)
    {
      StepAgrees(all, fed, emitted + output, combined[index..], ended, longest);
      var length := FirstAt(secrets, all, combined, index);
      var piece, width := if length > 0 then MARKER else [combined[index]], if length > 0 then length else 1;
      assert combined[index..][width..] == combined[index + width..];
      assert emitted + output + piece == emitted + (output + piece);
      output := output + piece;
      index := index + width;
    }
  }

  /** A whole stream: however it is cut into chunks, what is kept is the tail of the redaction of its whole text. */
  method Collect(maxBytes: nat, secrets: set<string>, chunks: seq<string>) returns (kept: seq<byte>, truncated: bool)
    requires "" !in secrets
    ensures kept == Tail(Encode(Redact(secrets, Joined(chunks))), maxBytes)
    ensures truncated <==> |Encode(Redact(secrets, Joined(chunks)))| > maxBytes
  {
    var buffer := new RedactingTailBuffer(maxBytes, secrets);
    buffer.FeedAll(chunks);
    assert "" + Joined(chunks) == Joined(chunks);
    buffer.Finish();
    assert buffer.past == Redact(secrets, Joined(chunks));
    return buffer.tail.data, buffer.tail.truncated;
  }
}
