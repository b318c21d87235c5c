/**
 * Message formatting shared by the commands and the reaction handler:
 * the (type, content) of a command response, the bot-logs channel, and
 * Python's `str` of a non-negative int as used inside f-strings.
 */
module Formatting {

  /** The three response types, each with its own title and colour. */
  datatype ResponseType = Success | Warning | Error

  /** One `**heading**` block of a listing, followed by its links. */
  datatype Section = Section(heading: string, links: set<string>)

  /**
   * A command response. A listing's links are joined from a Python `set`,
   * whose order is unspecified, so each section keeps them as a set.
   */
  datatype Response =
    | Message(kind: ResponseType, text: string)
    | Listing(kind: ResponseType, sections: seq<Section>)

  /** The bot-logs channel: every `log_bot_action` message, oldest first. */
  class LogsChannel {
    var messages: seq<string>

    constructor ()
      ensures messages == []
    {
      messages := [];
    }

    method LogBotAction(message: string)
      modifies this
      ensures messages == old(messages) + [message]
    {
      messages := messages + [message];
    }
  }

  /** The text `log_interaction` logs and returns for a slash command. */
  function LogInteraction(userName: string, commandName: string): string
  {
    "User '" + userName + "' used command '" + commandName + "'."
  }

  function DigitChar(d: nat): (c: char)
    requires d < 10
    ensures '0' <= c <= '9' && c as int - '0' as int == d
  {
    "0123456789"[d]
  }

  predicate IsDigits(s: string)
  {
    forall i :: 0 <= i < |s| ==> '0' <= s[i] <= '9'
  }

  /** `str(n)` for an int `n >= 0`: its decimal digits, without leading zeros. */
  function IntToString(n: nat): (s: string)
    ensures |s| >= 1 && IsDigits(s)
    ensures s[0] == '0' ==> n == 0 && |s| == 1
    decreases n
  {
    if n < 10 then [DigitChar(n)] else IntToString(n / 10) + [DigitChar(n % 10)]
  }

  /** The number a string of decimal digits denotes. */
  function DecimalValue(s: string): nat
    requires IsDigits(s)
  {
    if s == [] then 0
    else DecimalValue(s[..|s| - 1]) * 10 + (s[|s| - 1] as int - '0' as int)
  }

  /** Reading back the digits `str` writes gives the number again. */
  lemma {:induction false} DecimalRoundTrip(n: nat)
    ensures DecimalValue(IntToString(n)) == n
    decreases n
  {
    if n >= 10 {
      DecimalRoundTrip(n / 10);
      var s := IntToString(n);
      assert s[..|s| - 1] == IntToString(n / 10);
    }
  }

  /** Distinct ids print differently, so a message naming an id names exactly that id. */
  lemma IntToStringInjective(m: nat, n: nat)
    ensures IntToString(m) == IntToString(n) ==> m == n
  {
    DecimalRoundTrip(m);
    DecimalRoundTrip(n);
  }

  predicate OccursAt(s: string, sub: string, i: int)
  {
    0 <= i <= |s| - |sub| && s[i..i + |sub|] == sub
  }

  /** `sub` occurs somewhere in `s`. */
  ghost predicate Contains(s: string, sub: string)
  {
    exists i :: OccursAt(s, sub, i)
  }

  lemma ContainsMiddle(prefix: string, sub: string, suffix: string)
    ensures Contains(prefix + sub + suffix, sub)
  {
    var s := prefix + sub + suffix;
    assert OccursAt(s, sub, |prefix|);
  }
}
