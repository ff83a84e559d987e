/**
 * What both chat bots share: the chat a message comes from, the
 * `Command('name')` filter that selects command handlers, and the way a
 * number typed by the user is read.
 */
module Chat {
  import opened Wrappers
  import Text

  /**
   * A chat identifier. The framework keys each FSM record by chat and user, and
   * the finance bot stores the sender's user id; one id stands for both, which
   * is exact in private chats.
   */
  type ChatId = int

  /** Length of the leading run of non-whitespace characters of `s`. */
  function WordLength(s: string): (n: nat)
    ensures n <= |s|
    ensures forall k :: 0 <= k < n ==> !Text.IsWhitespace(s[k])
    ensures n < |s| ==> Text.IsWhitespace(s[n])
  {
    if s == [] || Text.IsWhitespace(s[0]) then 0 else 1 + WordLength(s[1..])
  }

  /** `s.split()[0]`, or the empty string when `s` is blank. */
  function FirstWord(s: string): (w: string)
    ensures forall k :: 0 <= k < |w| ==> !Text.IsWhitespace(w[k])
  {
    var t := s[Text.LeadingWhitespace(s)..];
    t[..WordLength(t)]
  }

  /**
   * The `Command(name)` filter: the first word of the text is `/name`
   * (a `@botname` suffix is not modelled).
   */
  predicate IsCommand(text: string, name: string)
    ensures IsCommand(text, name) ==> "/" + name <= text[Text.LeadingWhitespace(text)..]
    ensures IsCommand(text, name) && |text| > |name| + 1 + Text.LeadingWhitespace(text) ==>
              Text.IsWhitespace(text[Text.LeadingWhitespace(text) + |name| + 1])
  {
    FirstWord(text) == "/" + name
  }

  /** A command word followed by arguments still selects the command. */
  lemma {:induction false} CommandWithArguments(name: string, args: string)
    requires forall k :: 0 <= k < |name| ==> !Text.IsWhitespace(name[k])
    ensures IsCommand("/" + name, name)
    ensures IsCommand("/" + name + " " + args, name)
  {
    var w := "/" + name;
    WordThenWhitespace(w, []);
    WordThenWhitespace(w, " " + args);
    assert w + " " + args == w + (" " + args);
  }

  lemma {:induction false} WordThenWhitespace(w: string, rest: string)
    requires w != [] && forall k :: 0 <= k < |w| ==> !Text.IsWhitespace(w[k])
    requires rest == [] || Text.IsWhitespace(rest[0])
    ensures FirstWord(w + rest) == w
  {
    WordLengthOf(w, rest);
    assert (w + rest)[0] == w[0];
    assert (w + rest)[0..] == w + rest;
    assert (w + rest)[..|w|] == w;
  }

  lemma {:induction false} WordLengthOf(w: string, rest: string)
    requires forall k :: 0 <= k < |w| ==> !Text.IsWhitespace(w[k])
    requires rest == [] || Text.IsWhitespace(rest[0])
    ensures WordLength(w + rest) == |w|
  {
    if w != [] {
      assert (w + rest)[1..] == w[1..] + rest;
      WordLengthOf(w[1..], rest);
    } else {
      assert w + rest == rest;
    }
  }

  /** Why a number typed by the user is refused. */
  datatype NumberError = NotNumeric | NotPositive

  /**
   * `float(text.replace(',', '.'))` followed by the `<= 0` check, as both bots
   * read an amount or a rate. `parseFloat` stands for `float()`: None where it
   * raises ValueError.
   */
  function PositiveNumber(text: string, parseFloat: string -> Option<real>): (r: Result<real, NumberError>)
    ensures var parsed := parseFloat(Text.ReplaceChar(text, ',', '.'));
            && (r == Failure(NotNumeric) <==> parsed.None?)
            && (r == Failure(NotPositive) <==> parsed.Some? && parsed.value <= 0.0)
            && (r.Success? ==> parsed == Some(r.value) && r.value > 0.0)
  {
    match parseFloat(Text.ReplaceChar(text, ',', '.'))
    case None => Failure(NotNumeric)
    case Some(v) => if v <= 0.0 then Failure(NotPositive) else Success(v)
  }

  /** A comma typed as the decimal separator reads as a dot. */
  lemma CommaReadsAsDot(whole: string, fraction: string, parseFloat: string -> Option<real>)
    requires ',' !in whole && ',' !in fraction
    ensures PositiveNumber(whole + "," + fraction, parseFloat) == PositiveNumber(whole + "." + fraction, parseFloat)
  {
    assert Text.ReplaceChar(whole + "," + fraction, ',', '.') == whole + "." + fraction;
    assert Text.ReplaceChar(whole + "." + fraction, ',', '.') == whole + "." + fraction;
  }
}
