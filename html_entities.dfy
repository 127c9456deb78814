/** The server-side branch of `decodeHtmlEntities`, identical in lib/helpers.ts and lib/utils.ts:
    five global replacements applied one after the other. (The browser branch parses the text as
    HTML and is not part of this model.) */
module HtmlEntities {
  import opened Outcomes

  /** `s.replace(/pat/g, rep)` for a literal pattern: matches are found left to right, do not
      overlap, and replaced text is not searched again. */
  function ReplaceAll(s: string, pat: string, rep: string): (r: string)
    requires |pat| > 0
    ensures |rep| <= |pat| ==> |r| <= |s|
    ensures pat[0] !in s ==> r == s
  {
    if |s| < |pat| then s
    else if s[..|pat|] == pat then rep + ReplaceAll(s[|pat|..], pat, rep)
    else
      var rest := ReplaceAll(s[1..], pat, rep);
      assert pat[0] !in s ==> pat[0] !in s[1..];
      assert s == [s[0]] + s[1..];
      [s[0]] + rest
  }

  /** The server branch as written: `&amp;` first, then `&lt;`, `&gt;`, `&quot;`, `&#39;`. */
  function DecodeHtmlEntities(text: string): (r: string)
    ensures |r| <= |text|
    ensures '&' !in text ==> r == text
  {
    var amp := ReplaceAll(text, "&amp;", "&");
    var lt := ReplaceAll(amp, "&lt;", "<");
    var gt := ReplaceAll(lt, "&gt;", ">");
    var quot := ReplaceAll(gt, "&quot;", "\"");
    ReplaceAll(quot, "&#39;", "'")
  }

  /** Because `&amp;` goes first, the `&` it produces starts a new entity: "&amp;lt;" ends as "<". */
  lemma AmpersandDecodedTwice()
    ensures DecodeHtmlEntities("&amp;lt;") == "<"
  {
    assert ReplaceAll("&amp;lt;", "&amp;", "&") == "&lt;" by {
      assert "&amp;lt;"[..5] == "&amp;" && "&amp;lt;"[5..] == "lt;";
      assert ReplaceAll("lt;", "&amp;", "&") == "lt;";
    }
    assert ReplaceAll("&lt;", "&lt;", "<") == "<" by {
      assert "&lt;"[..4] == "&lt;" && "&lt;"[4..] == "";
    }
  }

  /** The entity each special character is written as. */
  function EncodeChar(c: char): string {
    match c
    case '&' => "&amp;"
    case '<' => "&lt;"
    case '>' => "&gt;"
    case '"' => "&quot;"
    case '\'' => "&#39;"
    case _ => [c]
  }

  /** HTML escaping of the five characters the decoder knows. */
  function EncodeHtmlEntities(s: string): (r: string)
    ensures |r| >= |s|
  {
    if s == [] then [] else EncodeChar(s[0]) + EncodeHtmlEntities(s[1..])
  }

  /** The entity, if any, that `s` starts with, and the character it stands for. */
  function EntityAt(s: string): (r: Option<(string, char)>)
    ensures r.Some? ==> 0 < |r.value.0| <= |s| && s[..|r.value.0|] == r.value.0 && s[0] == '&'
    ensures s != [] && s[0] != '&' ==> r.None?
  {
    if |s| >= 5 && s[..5] == "&amp;" then Some(("&amp;", '&'))
    else if |s| >= 4 && s[..4] == "&lt;" then Some(("&lt;", '<'))
    else if |s| >= 4 && s[..4] == "&gt;" then Some(("&gt;", '>'))
    else if |s| >= 6 && s[..6] == "&quot;" then Some(("&quot;", '"'))
    else if |s| >= 5 && s[..5] == "&#39;" then Some(("&#39;", '\''))
    else None
  }

  /** Decoding in one pass: an entity is replaced by its character and scanning goes on after it,
      so the characters it produces are never decoded again, as the browser branch does. */
  function DecodeHtmlEntitiesOnce(s: string): (r: string)
    ensures |r| <= |s|
    ensures '&' !in s ==> r == s
    decreases |s|
  {
    if s == [] then []
    else
      match EntityAt(s)
      case Some((entity, c)) => [c] + DecodeHtmlEntitiesOnce(s[|entity|..])
      case None =>
        assert s == [s[0]] + s[1..];
        [s[0]] + DecodeHtmlEntitiesOnce(s[1..])
  }

  /** One decoding step undoes the encoding of one character. */
  lemma DecodeOnceOfEncodedChar(c: char, rest: string)
    ensures DecodeHtmlEntitiesOnce(EncodeChar(c) + rest) == [c] + DecodeHtmlEntitiesOnce(rest)
  {
    var e := EncodeChar(c);
    var s := e + rest;
    assert s[..|e|] == e;
    assert s[|e|..] == rest;
    if c == '&' || c == '<' || c == '>' || c == '"' || c == '\'' {
      EncodedSpecialChar(c, rest);
    } else {
      assert s[0] == c;
      assert s[1..] == rest;
    }
  }

  /** A special character's entity is recognized at the front of the encoded text. */
  lemma EncodedSpecialChar(c: char, rest: string)
    requires c == '&' || c == '<' || c == '>' || c == '"' || c == '\''
    ensures EntityAt(EncodeChar(c) + rest) == Some((EncodeChar(c), c))
  {
    var s := EncodeChar(c) + rest;
    assert s[..|EncodeChar(c)|] == EncodeChar(c);
    if c != '&' {
      assert s[1] == EncodeChar(c)[1] != 'a';
      assert |s| >= 5 ==> s[..5] != "&amp;" by { assert "&amp;"[1] == 'a'; }
    }
  }

  /** The single-pass decoder inverts the encoding. */
  lemma {:induction false} DecodeOnceOfEncode(s: string)
    ensures DecodeHtmlEntitiesOnce(EncodeHtmlEntities(s)) == s
  {
    if s != [] {
      DecodeOnceOfEncodedChar(s[0], EncodeHtmlEntities(s[1..]));
      DecodeOnceOfEncode(s[1..]);
      assert s == [s[0]] + s[1..];
    }
  }

  /** The chain as written does not: the escaped text "&lt;" comes back as "<". */
  lemma DecodeOfEncodeFails()
    ensures EncodeHtmlEntities("&lt;") == "&amp;lt;"
    ensures DecodeHtmlEntities(EncodeHtmlEntities("&lt;")) == "<"
    ensures DecodeHtmlEntitiesOnce(EncodeHtmlEntities("&lt;")) == "&lt;"
  {
    assert EncodeHtmlEntities("&lt;") == "&amp;" + "l" + "t" + ";" by {
      assert EncodeHtmlEntities(";") == ";";
      assert EncodeHtmlEntities("t;") == "t;";
      assert EncodeHtmlEntities("lt;") == "lt;";
    }
    AmpersandDecodedTwice();
    DecodeOnceOfEncode("&lt;");
  }
}
