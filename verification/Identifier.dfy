/** Escaping of SQL identifiers, and PostgreSQL's reading of them. */
module Identifier {
  import opened Wrappers

  predicate SafeStart(ch: char) { 'a' <= ch <= 'z' || ch == '_' }

  predicate SafeChar(ch: char) { SafeStart(ch) || '0' <= ch <= '9' }

  /** `is_safe_identifier`, for any list of keywords that require quotes. */
  predicate IsSafe(identifier: string, keywords: set<string>) {
    && identifier != [] && SafeStart(identifier[0])
    && (forall i :: 0 <= i < |identifier| ==> SafeChar(identifier[i]))
    && identifier !in keywords
  }

  /** The text between the quotes: every quote is doubled. */
  function Doubled(s: string): string {
    if s == [] then [] else (if s[0] == '"' then "\"\"" else [s[0]]) + Doubled(s[1..])
  }

  function Escaped(identifier: string, keywords: set<string>): string {
    if IsSafe(identifier, keywords) then identifier else "\"" + Doubled(identifier) + "\""
  }

  lemma {:induction false} DoubledSnoc(s: string, ch: char)
    ensures Doubled(s + [ch]) == Doubled(s) + if ch == '"' then "\"\"" else [ch]
  {
    if s == [] {
      assert [ch][1..] == [];
    } else {
      assert (s + [ch])[1..] == s[1..] + [ch];
      DoubledSnoc(s[1..], ch);
    }
  }

  /** `escape_identifier`. */
  method EscapeIdentifier(identifier: string, keywords: set<string>) returns (result: string)
    ensures result == Escaped(identifier, keywords)
  {
    if IsSafe(identifier, keywords) {
      return identifier;
    }
    result := "\"";
    for i := 0 to |identifier|
      invariant result == "\"" + Doubled(identifier[..i])
    {
      var ch := identifier[i];
      assert identifier[..i + 1] == identifier[..i] + [ch];
      DoubledSnoc(identifier[..i], ch);
      if ch == '"' { result := result + ['"']; }
      result := result + [ch];
    }
    assert identifier[..|identifier|] == identifier;
    result := result + ['"'];
  }

  // --------------------------------------------------------- how PostgreSQL reads

  /** Characters that continue an unquoted identifier (section 4.1.1 of the PostgreSQL
      manual): letters, also non-Latin ones, digits, underscores and dollar signs. */
  predicate WordChar(ch: char) { SafeChar(ch) || 'A' <= ch <= 'Z' || ch == '$' || '\U{0080}' <= ch }

  function Fold(ch: char): char { if 'A' <= ch <= 'Z' then (ch as int + 32) as char else ch }

  /** The longest unquoted word at the front of `text`, case-folded, and the rest. */
  function ReadWord(text: string): (string, string) {
    if text == [] || !WordChar(text[0]) then ([], text)
    else var (word, rest) := ReadWord(text[1..]); ([Fold(text[0])] + word, rest)
  }

  /** Reads after an opening quote: a doubled quote is a quote, a single one ends, and the
      character with code zero is not allowed. */
  function ReadQuoted(text: string): Option<(string, string)> {
    if text == [] || text[0] == '\0' then None
    else if text[0] != '"' then
      match ReadQuoted(text[1..])
      case None => None
      case Some((name, rest)) => Some(([text[0]] + name, rest))
    else if |text| > 1 && text[1] == '"' then
      match ReadQuoted(text[2..])
      case None => None
      case Some((name, rest)) => Some((['"'] + name, rest))
    else Some(([], text[1..]))
  }

  const MAX_BYTES: nat := 63

  function Bytes(ch: char): nat {
    if ch < '\U{0080}' then 1 else if ch < '\U{0800}' then 2 else if ch < '\U{10000}' then 3 else 4
  }

  function ByteLength(s: string): nat {
    if s == [] then 0 else Bytes(s[0]) + ByteLength(s[1..])
  }

  /** The longest front of `s` that fits into `room` bytes. */
  function Clip(s: string, room: nat): string {
    if s == [] || Bytes(s[0]) > room then [] else [s[0]] + Clip(s[1..], room - Bytes(s[0]))
  }

  /** The identifier at the front of `text` and what follows it. A quoted identifier must
      not be empty, and of a long identifier only the first 63 bytes count. */
  function ReadIdentifier(text: string, keywords: set<string>): Option<(string, string)> {
    if text != [] && text[0] == '"' then
      match ReadQuoted(text[1..])
      case None => None
      case Some((name, rest)) => if name == [] then None else Some((Clip(name, MAX_BYTES), rest))
    else
      var (word, rest) := ReadWord(text);
      if word == [] || '0' <= word[0] <= '9' || word[0] == '$' || word in keywords then None
      else Some((Clip(word, MAX_BYTES), rest))
  }

  /** Nothing that could extend the identifier follows it. */
  predicate Ends(suffix: string) { suffix == [] || (!WordChar(suffix[0]) && suffix[0] != '"') }

  lemma {:induction false} ClipExact(s: string, room: nat)
    ensures Clip(s, room) <= s && ByteLength(Clip(s, room)) <= room
    ensures Clip(s, room) == s <==> ByteLength(s) <= room
  {
    if s != [] && Bytes(s[0]) <= room {
      ClipExact(s[1..], room - Bytes(s[0]));
      var c := Clip(s[1..], room - Bytes(s[0]));
      assert ([s[0]] + c)[1..] == c && s == [s[0]] + s[1..];
    }
  }

  /** What comes after the first `room` bytes does not matter. */
  lemma {:induction false} ClipIgnores(s: string, tail: string, room: nat)
    requires room <= ByteLength(s)
    ensures Clip(s + tail, room) == Clip(s, room)
  {
    if s == [] {
      assert s + tail == tail;
    } else if Bytes(s[0]) <= room {
      assert (s + tail)[1..] == s[1..] + tail;
      ClipIgnores(s[1..], tail, room - Bytes(s[0]));
    }
  }

  lemma {:induction false} ReadDoubled(s: string, suffix: string)
    requires suffix == [] || suffix[0] != '"'
    ensures ReadQuoted(Doubled(s) + "\"" + suffix) == if '\0' in s then None else Some((s, suffix))
  {
    var text := Doubled(s) + "\"" + suffix;
    if s == [] {
      assert text[1..] == suffix;
    } else {
      ReadDoubled(s[1..], suffix);
      assert s == [s[0]] + s[1..];
      var inner := Doubled(s[1..]) + "\"" + suffix;
      if s[0] == '"' {
        assert text == "\"\"" + inner;
        assert text[2..] == inner;
      } else {
        assert text == [s[0]] + inner;
        assert text[1..] == inner;
      }
    }
  }

  lemma {:induction false} ReadSafe(s: string, suffix: string)
    requires (forall i :: 0 <= i < |s| ==> SafeChar(s[i])) && Ends(suffix)
    ensures ReadWord(s + suffix) == (s, suffix)
  {
    if s == [] {
      assert s + suffix == suffix;
    } else {
      assert (s + suffix)[1..] == s[1..] + suffix;
      ReadSafe(s[1..], suffix);
      assert SafeChar(s[0]) && s == [s[0]] + s[1..];
    }
  }

  /** The raw names that PostgreSQL can hold as they are. */
  predicate Readable(s: string) { s != [] && '\0' !in s && ByteLength(s) <= MAX_BYTES }

  /** The name PostgreSQL sees when a raw one is escaped. */
  function Seen(s: string): Option<string> { if s == [] || '\0' in s then None else Some(Clip(s, MAX_BYTES)) }

  function Reading(s: string, suffix: string): Option<(string, string)> {
    if Seen(s).None? then None else Some((Seen(s).value, suffix))
  }

  lemma SafeIsSeen(s: string, keywords: set<string>, suffix: string)
    requires Ends(suffix) && IsSafe(s, keywords)
    ensures ReadIdentifier(s + suffix, keywords) == Reading(s, suffix)
  {
    ReadSafe(s, suffix);
    assert (s + suffix)[0] == s[0];
    assert '\0' !in s;
  }

  lemma QuotedIsSeen(s: string, keywords: set<string>, suffix: string)
    requires Ends(suffix)
    ensures ReadIdentifier(['"'] + (Doubled(s) + "\"" + suffix), keywords) == Reading(s, suffix)
  {
    ReadDoubled(s, suffix);
    var text := Doubled(s) + "\"" + suffix;
    assert (['"'] + text)[1..] == text;
  }

  /** PostgreSQL stops exactly where an escaped identifier ends, whatever the raw text and
      whatever follows, and sees its first 63 bytes, if it is legal at all. */
  lemma EscapedIsSeen(s: string, keywords: set<string>, suffix: string)
    requires Ends(suffix)
    ensures ReadIdentifier(Escaped(s, keywords) + suffix, keywords) == Reading(s, suffix)
  {
    if IsSafe(s, keywords) {
      SafeIsSeen(s, keywords, suffix);
    } else {
      QuotedIsSeen(s, keywords, suffix);
      assert Escaped(s, keywords) + suffix == ['"'] + (Doubled(s) + "\"" + suffix);
    }
  }

  /** Round trip, exactly: PostgreSQL reads an escaped identifier as the raw one if and only
      if the raw one is not empty, has no zero character and fits into 63 bytes. */
  lemma EscapedReadsBack(s: string, keywords: set<string>, suffix: string)
    requires Ends(suffix)
    ensures ReadIdentifier(Escaped(s, keywords) + suffix, keywords) == Some((s, suffix)) <==> Readable(s)
  {
    EscapedIsSeen(s, keywords, suffix);
    ClipExact(s, MAX_BYTES);
  }

  /** The names that fail: the empty one is rejected, and two names that share their
      first 63 bytes are one name to PostgreSQL, however they go on. */
  lemma LongNamesCollide(shared: string, a: string, b: string, keywords: set<string>, suffix: string)
    requires Ends(suffix) && MAX_BYTES <= ByteLength(shared) && '\0' !in shared + a + b
    ensures ReadIdentifier(Escaped([], keywords) + suffix, keywords) == None
    ensures ReadIdentifier(Escaped(shared + a, keywords) + suffix, keywords)
         == ReadIdentifier(Escaped(shared + b, keywords) + suffix, keywords)
    ensures ReadIdentifier(Escaped(shared + a, keywords) + suffix, keywords).Some?
  {
    EscapedIsSeen([], keywords, suffix);
    EscapedIsSeen(shared + a, keywords, suffix);
    EscapedIsSeen(shared + b, keywords, suffix);
    ClipIgnores(shared, a, MAX_BYTES);
    ClipIgnores(shared, b, MAX_BYTES);
    assert shared != [];
  }

  /** Escaping is injective. */
  lemma EscapedInjective(s: string, t: string, keywords: set<string>)
    requires Escaped(s, keywords) == Escaped(t, keywords)
    ensures s == t
  {
    if !IsSafe(s, keywords) && !IsSafe(t, keywords) {
      var a, b := "\"" + Doubled(s) + "\"", "\"" + Doubled(t) + "\"";
      assert Doubled(s) == a[1..|a| - 1] && Doubled(t) == b[1..|b| - 1];
      DoubledInjective(s, t);
    }
  }

  lemma {:induction false} DoubledInjective(s: string, t: string)
    requires Doubled(s) == Doubled(t)
    ensures s == t
  {
    if s != [] && t != [] {
      var a, b := Doubled(s), Doubled(t);
      var step := if s[0] == '"' then 2 else 1;
      assert a[0] == s[0] && b[0] == t[0];
      assert a[step..] == Doubled(s[1..]) && b[step..] == Doubled(t[1..]);
      DoubledInjective(s[1..], t[1..]);
      assert s == [s[0]] + s[1..] && t == [t[0]] + t[1..];
    }
  }

  /** `Schema::identifier`. */
  function Qualified(schema: string, name: string, keywords: set<string>): string {
    Escaped(schema, keywords) + "." + Escaped(name, keywords)
  }

  /** A qualified name is the two identifiers and nothing else. */
  lemma QualifiedIsSeen(schema: string, name: string, keywords: set<string>)
    ensures ReadIdentifier(Qualified(schema, name, keywords), keywords)
         == Reading(schema, "." + Escaped(name, keywords))
    ensures ReadIdentifier(Escaped(name, keywords), keywords) == Reading(name, [])
  {
    EscapedIsSeen(schema, keywords, "." + Escaped(name, keywords));
    assert Qualified(schema, name, keywords) == Escaped(schema, keywords) + ("." + Escaped(name, keywords));
    EscapedIsSeen(name, keywords, []);
    assert Escaped(name, keywords) + [] == Escaped(name, keywords);
  }
}
