/** The three reply-markup options a bot can attach to a message, and their
    JSON text as Go's encoding/json writes it (fields in declaration order). */
module Markup {

  /** A custom keyboard: rows of button labels. */
  datatype ReplyKeyboardMarkup = ReplyKeyboardMarkup(keyboard: seq<seq<string>>, resizeKeyboard: bool,
                                                     oneTimeKeyboard: bool, selective: bool)
  /** Request to hide a custom keyboard. */
  datatype ReplyKeyboardHide = ReplyKeyboardHide(hideKeyboard: bool, selective: bool)
  /** Request that clients show a forced reply. */
  datatype ForceReply = ForceReply(forceReply: bool, selective: bool)

  /** The reply-markup interface value of outgoing.go: one of the three. */
  datatype ReplyMarkup = Keyboard(keyboard: ReplyKeyboardMarkup) | Hide(hide: ReplyKeyboardHide) | Force(force: ForceReply)

  function JsonBool(b: bool): string {
    if b then "true" else "false"
  }

  function HexDigit(d: nat): char
    requires d < 16
  {
    "0123456789abcdef"[d]
  }

  /** One character inside a JSON string literal, escaped as encoding/json
      does (quote, backslash, control characters, and the HTML-sensitive
      '<', '>', '&' and the two Unicode line separators). */
  function EscapeChar(c: char): string {
    if c == '"' then "\\\""
    else if c == '\\' then "\\\\"
    else if c == '\n' then "\\n"
    else if c == '\r' then "\\r"
    else if c == '\t' then "\\t"
    else if c < ' ' then "\\u00" + [HexDigit(c as int / 16), HexDigit(c as int % 16)]
    else if c == '<' then "\\u003c"
    else if c == '>' then "\\u003e"
    else if c == '&' then "\\u0026"
    else if c == '\U{2028}' then "\\u2028"
    else if c == '\U{2029}' then "\\u2029"
    else [c]
  }

  function EscapeChars(s: string): string {
    if s == [] then "" else EscapeChar(s[0]) + EscapeChars(s[1..])
  }

  function JsonString(s: string): string {
    "\"" + EscapeChars(s) + "\""
  }

  /** Characters encoding/json writes unchanged inside a string literal. */
  predicate Plain(c: char) {
    c >= ' ' && c != '"' && c != '\\' && c != '<' && c != '>' && c != '&'
    && c != '\U{2028}' && c != '\U{2029}'
  }

  /** A text made only of plain characters is written verbatim between quotes. */
  lemma {:induction false} PlainTextVerbatim(s: string)
    requires forall i :: 0 <= i < |s| ==> Plain(s[i])
    ensures EscapeChars(s) == s
    ensures JsonString(s) == "\"" + s + "\""
  {
    if s != [] {
      PlainTextVerbatim(s[1..]);
      assert s == [s[0]] + s[1..];
    }
  }

  /** Every special character is replaced by an escape sequence starting with a backslash. */
  lemma SpecialCharsEscaped(c: char)
    ensures !Plain(c) ==> |EscapeChar(c)| >= 2 && EscapeChar(c)[0] == '\\'
    ensures Plain(c) ==> EscapeChar(c) == [c]
  {
  }

  /** Comma-separated string literals. */
  function JsonStrings(row: seq<string>): string {
    if row == [] then ""
    else if |row| == 1 then JsonString(row[0])
    else JsonString(row[0]) + "," + JsonStrings(row[1..])
  }

  /** Comma-separated arrays of string literals. */
  function JsonRows(rows: seq<seq<string>>): string {
    if rows == [] then ""
    else if |rows| == 1 then "[" + JsonStrings(rows[0]) + "]"
    else "[" + JsonStrings(rows[0]) + "]," + JsonRows(rows[1..])
  }

  /** A JSON object whose first member is "keyboard". */
  function KeyboardJSON(m: ReplyKeyboardMarkup): (s: string)
    ensures |s| > 12 && s[..12] == "{\"keyboard\":" && s[|s| - 1] == '}'
  {
    "{\"keyboard\":[" + JsonRows(m.keyboard) + "],\"resize_keyboard\":" + JsonBool(m.resizeKeyboard)
      + ",\"one_time_keyboard\":" + JsonBool(m.oneTimeKeyboard) + ",\"selective\":" + JsonBool(m.selective) + "}"
  }

  /** A JSON object whose first member is "hide_keyboard". */
  function HideJSON(h: ReplyKeyboardHide): (s: string)
    ensures |s| > 17 && s[..17] == "{\"hide_keyboard\":" && s[|s| - 1] == '}'
  {
    "{\"hide_keyboard\":" + JsonBool(h.hideKeyboard) + ",\"selective\":" + JsonBool(h.selective) + "}"
  }

  /** A JSON object whose first member is "force_reply". */
  function ForceReplyJSON(f: ForceReply): (s: string)
    ensures |s| > 15 && s[..15] == "{\"force_reply\":" && s[|s| - 1] == '}'
  {
    "{\"force_reply\":" + JsonBool(f.forceReply) + ",\"selective\":" + JsonBool(f.selective) + "}"
  }

  /** The encoding of the markup interface value: an object delimited by braces
      whose first member names the kind of markup. */
  function MarkupJSON(m: ReplyMarkup): (s: string)
    ensures |s| > 2 && s[0] == '{' && s[1] == '"' && s[|s| - 1] == '}'
    ensures s[2] == 'k' <==> m.Keyboard?
    ensures s[2] == 'h' <==> m.Hide?
    ensures s[2] == 'f' <==> m.Force?
  {
    match m
    case Keyboard(k) =>
      var s := KeyboardJSON(k);
      assert s[0] == s[..12][0] && s[1] == s[..12][1] && s[2] == s[..12][2];
      s
    case Hide(h) =>
      var s := HideJSON(h);
      assert s[0] == s[..17][0] && s[1] == s[..17][1] && s[2] == s[..17][2];
      s
    case Force(f) =>
      var s := ForceReplyJSON(f);
      assert s[0] == s[..15][0] && s[1] == s[..15][1] && s[2] == s[..15][2];
      s
  }

  /** Markups of different kinds never encode to the same text. */
  lemma MarkupKindsEncodeDifferently(m1: ReplyMarkup, m2: ReplyMarkup)
    requires m1.Keyboard? != m2.Keyboard? || m1.Hide? != m2.Hide?
    ensures MarkupJSON(m1) != MarkupJSON(m2)
  {
  }
}
