/**
 * Text shared by both snapshot generators: `escapeHtml`, which the two
 * generators define identically, the snapshot file names, and the timestamp
 * formatter both of them use for those names.
 */
module SnapshotText {
  import opened Common

  // ---------------------------------------------------------------------
  // escapeHtml
  // ---------------------------------------------------------------------

  /** `s.replace(c, r)` for a one-character target: every `c` becomes `r`. */
  function ReplaceChar(s: string, c: char, r: string): (t: string)
    decreases |s|
  {
    if |s| == 0 then "" else (if s[0] == c then r else [s[0]]) + ReplaceChar(s[1..], c, r)
  }

  /**
   * `escapeHtml`: null gives the empty text; otherwise the five replacements
   * run one after the other, `&` first.
   */
  function EscapeHtml(text: Option<string>): (r: string)
    ensures text.None? ==> r == ""
    ensures text.Some? ==> r == Escaped(text.value)
  {
    if text.None? then ""
    else
      EscapeCharwise(text.value);
      ReplaceChain(text.value)
  }

  /** The five `replace` calls, in the order they are made. */
  function ReplaceChain(s: string): (t: string)
  {
    ReplaceChar(ReplaceChar(ReplaceChar(ReplaceChar(ReplaceChar(
      s, '&', "&amp;"), '<', "&lt;"), '>', "&gt;"), '"', "&quot;"), '\'', "&#39;")
  }

  /** The characters `escapeHtml` rewrites. */
  predicate Special(c: char)
  {
    c == '&' || c == '<' || c == '>' || c == '"' || c == '\''
  }

  /** The entity that stands for a character, or the character itself. */
  function Entity(c: char): (e: string)
  {
    if c == '&' then "&amp;"
    else if c == '<' then "&lt;"
    else if c == '>' then "&gt;"
    else if c == '"' then "&quot;"
    else if c == '\'' then "&#39;"
    else [c]
  }

  /** Each character of `s` written as its entity, left to right. */
  function Escaped(s: string): (t: string)
    decreases |s|
  {
    if |s| == 0 then "" else Entity(s[0]) + Escaped(s[1..])
  }

  lemma {:induction false} ReplaceAppend(a: string, b: string, c: char, r: string)
    ensures ReplaceChar(a + b, c, r) == ReplaceChar(a, c, r) + ReplaceChar(b, c, r)
    decreases |a|
  {
    if |a| > 0 {
      assert (a + b)[0] == a[0] && (a + b)[1..] == a[1..] + b;
      ReplaceAppend(a[1..], b, c, r);
    } else {
      assert a + b == b;
    }
  }

  lemma {:induction false} ReplaceAbsent(s: string, c: char, r: string)
    requires c !in s
    ensures ReplaceChar(s, c, r) == s
    decreases |s|
  {
    if |s| > 0 {
      assert s[0] != c && c !in s[1..];
      ReplaceAbsent(s[1..], c, r);
      assert s == [s[0]] + s[1..];
    }
  }

  lemma ChainAppend(a: string, b: string)
    ensures ReplaceChain(a + b) == ReplaceChain(a) + ReplaceChain(b)
  {
    var a1, b1 := ReplaceChar(a, '&', "&amp;"), ReplaceChar(b, '&', "&amp;");
    ReplaceAppend(a, b, '&', "&amp;");
    var a2, b2 := ReplaceChar(a1, '<', "&lt;"), ReplaceChar(b1, '<', "&lt;");
    ReplaceAppend(a1, b1, '<', "&lt;");
    var a3, b3 := ReplaceChar(a2, '>', "&gt;"), ReplaceChar(b2, '>', "&gt;");
    ReplaceAppend(a2, b2, '>', "&gt;");
    var a4, b4 := ReplaceChar(a3, '"', "&quot;"), ReplaceChar(b3, '"', "&quot;");
    ReplaceAppend(a3, b3, '"', "&quot;");
    ReplaceAppend(a4, b4, '\'', "&#39;");
  }

  lemma ReplaceOne(c: char, d: char, r: string)
    ensures ReplaceChar([c], d, r) == if c == d then r else [c]
  {
    assert [c][1..] == [];
  }

  /** The replacements after a character's own one leave its entity as it is. */
  lemma AbsentFrom(c: char, d: char, r: string)
    requires d == '<' || d == '>' || d == '"' || d == '\''
    ensures ReplaceChar(Entity(c), d, r) == Entity(c)
  {
    EntityClean(c);
    ReplaceAbsent(Entity(c), d, r);
  }

  /** After `&` is replaced, the later replacements leave each entity as it is. */
  lemma {:induction false} ChainChar(c: char)
    ensures ReplaceChain([c]) == Entity(c)
  {
    var e := Entity(c);
    ReplaceOne(c, '&', "&amp;");
    ReplaceOne(c, '<', "&lt;");
    ReplaceOne(c, '>', "&gt;");
    ReplaceOne(c, '"', "&quot;");
    ReplaceOne(c, '\'', "&#39;");
    var s1 := ReplaceChar([c], '&', "&amp;");
    var s2 := ReplaceChar(s1, '<', "&lt;");
    var s3 := ReplaceChar(s2, '>', "&gt;");
    var s4 := ReplaceChar(s3, '"', "&quot;");
    if c == '&' {
      assert s1 == e;
    } else if c == '<' {
      assert s1 == [c] && s2 == e;
    } else if c == '>' {
      assert s1 == [c] && s2 == [c] && s3 == e;
    } else if c == '"' {
      assert s1 == [c] && s2 == [c] && s3 == [c] && s4 == e;
    } else {
      assert s1 == [c] && s2 == [c] && s3 == [c] && s4 == [c];
    }
    if c == '&' { AbsentFrom(c, '<', "&lt;"); }
    if c == '&' || c == '<' { AbsentFrom(c, '>', "&gt;"); }
    if c == '&' || c == '<' || c == '>' { AbsentFrom(c, '"', "&quot;"); }
    if c == '&' || c == '<' || c == '>' || c == '"' { AbsentFrom(c, '\'', "&#39;"); }
  }

  /**
   * The chain of replacements is the character-by-character rewrite: since
   * `&` goes first, no entity written by a later step is escaped again.
   */
  lemma {:induction false} EscapeCharwise(s: string)
    ensures ReplaceChain(s) == Escaped(s)
    decreases |s|
  {
    if |s| == 0 {
      assert ReplaceChain(s) == "";
    } else {
      assert s == [s[0]] + s[1..];
      ChainAppend([s[0]], s[1..]);
      ChainChar(s[0]);
      EscapeCharwise(s[1..]);
    }
  }

  /** No entity holds a raw `<`, `>`, `"` or `'`. */
  lemma EntityClean(c: char)
    ensures '<' !in Entity(c) && '>' !in Entity(c) && '"' !in Entity(c) && '\'' !in Entity(c)
    ensures !Special(c) ==> Entity(c) == [c]
  {
  }

  /** The escaped text holds no raw `<`, `>`, `"` or `'`. */
  lemma {:induction false} EscapedClean(s: string)
    ensures '<' !in Escaped(s) && '>' !in Escaped(s) && '"' !in Escaped(s) && '\'' !in Escaped(s)
    decreases |s|
  {
    if |s| > 0 {
      EntityClean(s[0]);
      EscapedClean(s[1..]);
    }
  }

  /** A text with none of the five characters comes back unchanged. */
  lemma {:induction false} EscapedPlain(s: string)
    requires forall i :: 0 <= i < |s| ==> !Special(s[i])
    ensures Escaped(s) == s
    decreases |s|
  {
    if |s| > 0 {
      EntityClean(s[0]);
      EscapedPlain(s[1..]);
      assert s == [s[0]] + s[1..];
    }
  }

  /** An escaped text never grows shorter. */
  lemma {:induction false} EscapedLength(s: string)
    ensures |Escaped(s)| >= |s|
    decreases |s|
  {
    if |s| > 0 {
      EscapedLength(s[1..]);
    }
  }

  /** Reading the entities back: the inverse of `Escaped`. */
  function Unescape(s: string): (t: string)
    decreases |s|
  {
    if |s| == 0 then ""
    else if StartsWith(s, "&amp;") then "&" + Unescape(s[5..])
    else if StartsWith(s, "&lt;") then "<" + Unescape(s[4..])
    else if StartsWith(s, "&gt;") then ">" + Unescape(s[4..])
    else if StartsWith(s, "&quot;") then "\"" + Unescape(s[6..])
    else if StartsWith(s, "&#39;") then "'" + Unescape(s[5..])
    else [s[0]] + Unescape(s[1..])
  }

  lemma UnescapeAmp(rest: string)
    ensures Unescape("&amp;" + rest) == "&" + Unescape(rest)
  {
    var s := "&amp;" + rest;
    assert s[..5] == "&amp;" && s[5..] == rest;
  }

  lemma UnescapeLt(rest: string)
    ensures Unescape("&lt;" + rest) == "<" + Unescape(rest)
  {
    var s := "&lt;" + rest;
    assert s[1] == 'l' && s[..4] == "&lt;" && s[4..] == rest;
  }

  lemma UnescapeGt(rest: string)
    ensures Unescape("&gt;" + rest) == ">" + Unescape(rest)
  {
    var s := "&gt;" + rest;
    assert s[1] == 'g' && s[..4] == "&gt;" && s[4..] == rest;
  }

  lemma UnescapeQuot(rest: string)
    ensures Unescape("&quot;" + rest) == "\"" + Unescape(rest)
  {
    var s := "&quot;" + rest;
    assert s[1] == 'q' && s[..6] == "&quot;" && s[6..] == rest;
  }

  lemma UnescapeApos(rest: string)
    ensures Unescape("&#39;" + rest) == "'" + Unescape(rest)
  {
    var s := "&#39;" + rest;
    assert s[1] == '#' && s[..5] == "&#39;" && s[5..] == rest;
  }

  lemma UnescapePlain(c: char, rest: string)
    requires c != '&'
    ensures Unescape([c] + rest) == [c] + Unescape(rest)
  {
    var s := [c] + rest;
    assert s[0] == c && s[1..] == rest;
  }

  lemma UnescapeEntity(c: char, rest: string)
    ensures Unescape(Entity(c) + rest) == [c] + Unescape(rest)
  {
    if c == '&' {
      UnescapeAmp(rest);
    } else if c == '<' {
      UnescapeLt(rest);
    } else if c == '>' {
      UnescapeGt(rest);
    } else if c == '"' {
      UnescapeQuot(rest);
    } else if c == '\'' {
      UnescapeApos(rest);
    } else {
      UnescapePlain(c, rest);
    }
  }

  /** Escaping loses nothing: the original text can be read back from it. */
  lemma {:induction false} EscapeRoundTrip(s: string)
    ensures Unescape(Escaped(s)) == s
    decreases |s|
  {
    if |s| > 0 {
      UnescapeEntity(s[0], Escaped(s[1..]));
      EscapeRoundTrip(s[1..]);
      assert s == [s[0]] + s[1..];
    }
  }

  // ---------------------------------------------------------------------
  // File names and their timestamp
  // ---------------------------------------------------------------------

  /**
   * `DateTimeFormatter.ofPattern("yyyyMMdd-HHmmss")`, possibly with a zone
   * attached by `withZone`. Which zone does not matter to the model, since
   * the text it produces is taken as given.
   */
  datatype TimestampFormat = TimestampFormat(zoned: bool)

  /** The formatter both generators declare: no zone is attached. */
  const TIMESTAMP_FORMAT: TimestampFormat := TimestampFormat(false)

  /** The same pattern with the system zone attached. */
  const ZONED_TIMESTAMP_FORMAT: TimestampFormat := TimestampFormat(true)

  /**
   * `format(instant)`. The pattern's year, month, day, hour, minute and
   * second are calendar fields, which an `Instant` does not carry; they can be
   * read only through a zone, so without one the JDK throws
   * `UnsupportedTemporalTypeException`. `local` is the text of the instant
   * in the formatter's zone.
   */
  function FormatInstant(f: TimestampFormat, local: string): (r: Fetch<string>)
    ensures r.Ok? <==> f.zoned
    ensures r.Ok? ==> r.value == local
  {
    if f.zoned then Ok(local) else Threw
  }

  /** `String.format("threadscope-%s", timestamp)`. */
  function BaseFileName(timestamp: string): (r: string)
    ensures StartsWith(r, "threadscope-") && r[|"threadscope-"|..] == timestamp
  {
    "threadscope-" + timestamp
  }

  /** A snapshot file about to be written: its directory, its name and its text. */
  datatype Written<C> = Written(directory: string, fileName: string, content: C)
}
