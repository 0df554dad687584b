/**
  The "!id" chat command: whether a chat line asks for a track
  announcement, and how many seconds back it asks for.

  The text is lower-cased and must start with "!id" (so "!identity" is a
  command too). The pieces after the first single space are scanned in
  order and the first one that is not blank once trimmed is the argument;
  when there is none, the whole lower-cased text stays the argument. The
  argument is read as a Go duration and truncated to whole seconds as an
  uint32; an argument that does not parse gives 0.
 */
module ChatCommand {
  import opened Wrappers
  import opened GoStrings
  import opened GoTime

  /** The command prefix, matched after lower-casing. */
  const CommandPrefix := "!id"

  /** Blank: nothing left after `strings.TrimSpace`. */
  predicate IsBlank(s: string) {
    TrimSpace(s) == ""
  }

  /** Index of the first piece that is not blank, or `|pieces|` when every piece is blank. */
  function FirstNonBlank(pieces: seq<string>): (k: nat)
    ensures k <= |pieces|
    ensures forall j :: 0 <= j < k ==> IsBlank(pieces[j])
    ensures k < |pieces| ==> !IsBlank(pieces[k])
  {
    if pieces == [] then 0
    else if !IsBlank(pieces[0]) then 0
    else 1 + FirstNonBlank(pieces[1..])
  }

  /** The pieces after the command word: the text split on single spaces, less the first piece. */
  function ArgumentPieces(text: string): seq<string> {
    Split(text, ' ')[1..]
  }

  /**
    The argument of a command line: the first non-blank piece after the
    first space, trimmed; the whole text when there is none.
   */
  function SelectArgument(text: string): (arg: string)
    ensures arg == text || (' ' !in arg && TrimSpace(arg) == arg != "")
  {
    var pieces := ArgumentPieces(text);
    var k := FirstNonBlank(pieces);
    if k < |pieces| then
      assert pieces[k] in Split(text, ' ');
      TrimmedPiece(pieces[k]);
      TrimSpace(pieces[k])
    else text
  }

  /** Trimming a piece without spaces leaves a piece without spaces that is its own trim. */
  lemma TrimmedPiece(piece: string)
    requires ' ' !in piece
    ensures ' ' !in TrimSpace(piece) && TrimSpace(TrimSpace(piece)) == TrimSpace(piece)
  {
    var r := TrimSpace(piece);
    assert forall i :: 0 <= i < |r| ==> r[i] == piece[TrimStart(piece) + i];
    TrimSpaceUnchanged(r);
  }

  /**
    The loop of `handleChatMessage`: walks the pieces after the first
    space and stops at the first one that is not blank once trimmed.
   */
  method CommandArgument(text: string) returns (arg: string)
    ensures arg == SelectArgument(text)
  {
    arg := text;
    var pieces := Split(text, ' ')[1..];
    for i := 0 to |pieces|
      invariant arg == text
      invariant forall j :: 0 <= j < i ==> IsBlank(pieces[j])
    {
      var piece := TrimSpace(pieces[i]);
      if piece != "" {
        arg := piece;
        assert FirstNonBlank(pieces) == i by {
          FirstNonBlankAt(pieces, i);
        }
        return;
      }
    }
    assert FirstNonBlank(pieces) == |pieces| by {
      FirstNonBlankAt(pieces, |pieces|);
    }
  }

  /** `FirstNonBlank` is pinned down by its contract: blanks before `k`, and `k` last or not blank. */
  lemma FirstNonBlankAt(pieces: seq<string>, k: nat)
    requires k <= |pieces|
    requires forall j :: 0 <= j < k ==> IsBlank(pieces[j])
    requires k < |pieces| ==> !IsBlank(pieces[k])
    ensures FirstNonBlank(pieces) == k
  {
  }

  /** The whole seconds an argument asks for: its duration truncated to seconds as an uint32, else 0. */
  function ArgumentDelta(arg: string): (seconds: nat)
    ensures seconds < TwoTo32
    ensures ParseDuration(arg).None? ==> seconds == 0
  {
    if arg == "" then 0
    else match ParseDuration(arg)
      case Some(d) => WholeSeconds(d)
      case None => 0
  }

  /**
    The look-back, in seconds, that a chat line asks for, or `None` when the
    line is not an "!id" command and no lookup is made.
   */
  function CommandDelta(text: string): (r: Option<nat>)
    ensures r.Some? <==> HasPrefix(ToLower(text), CommandPrefix)
    ensures r.Some? ==> r.value < TwoTo32
  {
    var lowered := ToLower(text);
    if !HasPrefix(lowered, CommandPrefix) then None
    else Some(ArgumentDelta(SelectArgument(lowered)))
  }

  /** Digits, spaces and the unit names are their own lower case. */
  lemma LowerCaseFixed(s: string)
    requires forall i :: 0 <= i < |s| ==> !('A' <= s[i] <= 'Z') && s[i] != '\U{130}' && s[i] != '\U{212A}' && s[i] != '\U{39C}'
    ensures ToLower(s) == s
  {
  }

  /** Every unit name is in lower case and contains neither a space nor a digit. */
  lemma UnitNameShape(u: string)
    requires u in UnitMap
    ensures ToLower(u) == u && ' ' !in u && u != [] && !IsSpace(u[|u| - 1]) && !IsDigit(u[|u| - 1])
  {
    assert UnitMap.Keys == {"ns", "us", "\U{B5}s", "\U{3BC}s", "ms", "s", "m", "h"};
    assert u in UnitMap.Keys;
  }

  /** Lower-casing a command line lower-cases the command word and keeps a lower-case argument. */
  lemma LowerCommandLine(word: string, t: string)
    requires ToLower(word) == CommandPrefix && ToLower(t) == t
    ensures ToLower(word + " " + t) == CommandPrefix + " " + t
  {
    ToLowerAppend(word + " ", t);
    ToLowerAppend(word, " ");
  }

  /**
    "!id", one space and an argument with no space inside and none at its
    ends: that argument is selected.
   */
  lemma SingleArgument(t: string)
    requires t != [] && ' ' !in t && !IsSpace(t[0]) && !IsSpace(t[|t| - 1])
    ensures SelectArgument(CommandPrefix + " " + t) == t
  {
    var lowered := CommandPrefix + " " + t;
    assert lowered == CommandPrefix + [' '] + t;
    SplitAt(CommandPrefix, t, ' ');
    SplitNoSep(CommandPrefix, ' ');
    SplitNoSep(t, ' ');
    assert ArgumentPieces(lowered) == [t];
    TrimSpaceUnchanged(t);
    FirstNonBlankAt([t], 0);
  }

  /** A command word, one space and a single clean argument: the look-back is that argument's. */
  lemma CommandOfArgument(word: string, t: string)
    requires ToLower(word) == CommandPrefix
    requires t != [] && ' ' !in t && !IsSpace(t[0]) && !IsSpace(t[|t| - 1])
    requires ToLower(t) == t
    ensures CommandDelta(word + " " + t) == Some(ArgumentDelta(t))
  {
    LowerCommandLine(word, t);
    SingleArgument(t);
    var lowered := CommandPrefix + " " + t;
    assert lowered[..3] == CommandPrefix;
  }

  /**
    "!id <n><unit>", in any letter case of "!id": the look-back is the
    amount in whole seconds, truncated and wrapped to 32 bits.
   */
  lemma CommandWithAmount(word: string, n: nat, u: string)
    requires ToLower(word) == CommandPrefix
    requires u in UnitMap && n * UnitMap[u] < TwoTo63
    ensures CommandDelta(word + " " + Decimal(n) + u) == Some(WholeSeconds(n * UnitMap[u]))
  {
    var t := Decimal(n) + u;
    AmountArgumentShape("", n, u);
    assert "" + Decimal(n) + u == t;
    assert word + " " + Decimal(n) + u == word + " " + t;
    CommandOfArgument(word, t);
    ParseDecimalWithUnit(n, u);
  }

  /**
    An amount argument, optionally signed: one piece with no space, not
    blank at either end, and already in lower case.
   */
  lemma AmountArgumentShape(sign: string, n: nat, u: string)
    requires sign == "" || sign == "-"
    requires u in UnitMap
    ensures var t := sign + Decimal(n) + u;
      t != [] && ' ' !in t && !IsSpace(t[0]) && !IsSpace(t[|t| - 1]) && ToLower(t) == t
  {
    var t := sign + Decimal(n) + u;
    UnitNameShape(u);
    LowerCaseFixed(sign + Decimal(n));
    ToLowerAppend(sign + Decimal(n), u);
    assert ' ' !in Decimal(n) && ' ' !in sign;
    assert t[0] == (sign + Decimal(n))[0] && t[|t| - 1] == u[|u| - 1];
  }

  /** "!id -<n><unit>": a negative look-back, which wraps modulo 2^32. */
  lemma CommandWithNegativeAmount(word: string, n: nat, u: string)
    requires ToLower(word) == CommandPrefix
    requires u in UnitMap && n * UnitMap[u] <= TwoTo63
    ensures CommandDelta(word + " -" + Decimal(n) + u) == Some(WholeSeconds(-(n * UnitMap[u])))
  {
    var t := "-" + Decimal(n) + u;
    AmountArgumentShape("-", n, u);
    assert word + " -" + Decimal(n) + u == word + " " + t;
    CommandOfArgument(word, t);
    NegatedAmountArgument(n, u);
  }

  /** The argument "-<n><unit>" asks for the negated amount, in whole seconds wrapped to 32 bits. */
  lemma NegatedAmountArgument(n: nat, u: string)
    requires u in UnitMap && n * UnitMap[u] <= TwoTo63
    ensures ArgumentDelta("-" + Decimal(n) + u) == WholeSeconds(-(n * UnitMap[u]))
  {
    ParseNegatedDecimalWithUnit(n, u);
    ParsedArgument("-" + Decimal(n) + u, -(n * UnitMap[u]));
  }

  /** An argument that parses asks for its duration in whole seconds. */
  lemma ParsedArgument(arg: string, d: int)
    requires ParseDuration(arg) == Some(d)
    ensures ArgumentDelta(arg) == WholeSeconds(d)
  {
  }

  /**
    A command with no non-blank piece after its first space keeps the whole
    text as its argument, which starts with '!' and never parses: look-back 0.
   */
  lemma NoArgumentMeansLatest(text: string)
    requires HasPrefix(ToLower(text), CommandPrefix)
    requires forall j :: 0 <= j < |ArgumentPieces(ToLower(text))| ==> IsBlank(ArgumentPieces(ToLower(text))[j])
    ensures CommandDelta(text) == Some(0)
  {
    var lowered := ToLower(text);
    FirstNonBlankAt(ArgumentPieces(lowered), |ArgumentPieces(lowered)|);
    assert lowered[0] == '!';
    ParseRejectsNonNumeric(lowered);
  }

  /** An argument whose last character is a digit lacks a unit on its final amount: look-back 0. */
  lemma ArgumentEndingInDigit(word: string, t: string)
    requires ToLower(word) == CommandPrefix
    requires t != [] && ' ' !in t && !IsSpace(t[0]) && ToLower(t) == t
    requires IsDigit(t[|t| - 1]) && t != "0" && t != "-0" && t != "+0"
    ensures CommandDelta(word + " " + t) == Some(0)
  {
    CommandOfArgument(word, t);
    TrailingDigitRejected(t);
  }

  /** A line not starting with "!id" in any letter case makes no lookup. */
  lemma NotCommand(text: string)
    requires !HasPrefix(ToLower(text), CommandPrefix)
    ensures CommandDelta(text) == None
  {
  }

  /** "!id <n><unit>" naming exactly `k` seconds, `k` below 2^32, asks for `k` seconds back. */
  lemma CommandSeconds(word: string, n: nat, u: string, k: nat)
    requires ToLower(word) == CommandPrefix
    requires u in UnitMap && n * UnitMap[u] == k * Second && k < TwoTo32
    ensures CommandDelta(word + " " + Decimal(n) + u) == Some(k)
  {
    var d := n * UnitMap[u];
    assert d < TwoTo63 && WholeSeconds(d) == k by {
      SecondsFit(k);
      WholeSecondsOfSeconds(d, k);
    }
    CommandWithAmount(word, n, u);
  }

  /** "!id -<n><unit>" naming `k` seconds back, `k` positive: the look-back wraps to 2^32 - k. */
  lemma CommandNegativeSeconds(word: string, n: nat, u: string, k: nat)
    requires ToLower(word) == CommandPrefix
    requires u in UnitMap && n * UnitMap[u] == k * Second && 0 < k < TwoTo32
    ensures CommandDelta(word + " -" + Decimal(n) + u) == Some(TwoTo32 - k)
  {
    var w := WholeSeconds(-(n * UnitMap[u]));
    assert CommandDelta(word + " -" + Decimal(n) + u) == Some(w) by {
      NegativeSecondsAmount(n, u, k);
      CommandWithNegativeAmount(word, n, u);
    }
    assert w == TwoTo32 - k by {
      NegativeSecondsAmount(n, u, k);
    }
  }

  /** "!ID 90s": case does not matter, and 90 seconds back is asked for. */
  lemma UpperCaseSeconds()
    ensures CommandDelta("!ID 90s") == Some(90)
  {
    assert Decimal(90) == "90";
    assert "!ID" + " " + Decimal(90) + "s" == "!ID 90s";
    assert ToLower("!ID") == CommandPrefix;
    assert UnitMap["s"] == Second;
    CommandSeconds("!ID", 90, "s", 90);
  }

  /** "!id 5m": five minutes back is 300 seconds. */
  lemma Minutes()
    ensures CommandDelta("!id 5m") == Some(300)
  {
    assert Decimal(5) == "5";
    assert "!id" + " " + Decimal(5) + "m" == "!id 5m";
    assert ToLower("!id") == CommandPrefix;
    assert UnitMap["m"] == 60 * Second;
    CommandSeconds("!id", 5, "m", 300);
  }

  /** "!id -90s": a negative look-back wraps to 2^32 - 90. */
  lemma NegativeSecondsWrap()
    ensures CommandDelta("!id -90s") == Some(4294967206)
  {
    assert Decimal(90) == "90";
    assert "!id" + " -" + Decimal(90) + "s" == "!id -90s";
    assert ToLower("!id") == CommandPrefix;
    assert UnitMap["s"] == Second;
    CommandNegativeSeconds("!id", 90, "s", 90);
  }

  /**
    "!id 3h47m16", the form the configuration page's help text shows: the
    final 16 has no unit, the duration is rejected, and the latest track is
    asked for.
   */
  lemma HelpTextExample()
    ensures CommandDelta("!id 3h47m16") == Some(0)
  {
    var t := "3h47m16";
    assert "!id" + " " + t == "!id 3h47m16";
    assert ToLower("!id") == CommandPrefix;
    assert ToLower(t) == t;
    assert ' ' !in t;
    ArgumentEndingInDigit("!id", t);
  }

  /** "!id 3h47m16s", the help text's example with a unit on its last group: 13636 seconds back. */
  lemma HelpTextWithUnit()
    ensures CommandDelta("!id 3h47m16s") == Some(13636)
  {
    var t := "3h47m16s";
    assert "!id" + " " + t == "!id 3h47m16s";
    assert ToLower("!id") == CommandPrefix;
    assert ToLower(t) == t;
    assert ' ' !in t;
    CommandOfArgument("!id", t);
    HoursMinutesSecondsExample();
    ParsedArgument(t, 13636 * Second);
    WholeSecondsOfSeconds(13636 * Second, 13636);
  }

  /** "!id 1193047h" is 4294969200 seconds back, past 2^32: the look-back wraps to 1904. */
  lemma LongLookBackWraps()
    ensures CommandDelta("!id 1193047h") == Some(1904)
  {
    assert Decimal(1193047) == "1193047";
    assert "!id" + " " + Decimal(1193047) + "h" == "!id 1193047h";
    assert ToLower("!id") == CommandPrefix;
    assert UnitMap["h"] == Hour;
    var d := 1193047 * Hour;
    assert d == 4294969200 * Second && d < TwoTo63;
    CommandWithAmount("!id", 1193047, "h");
    WholeSecondsOfSeconds(d, 4294969200);
  }

  /** "!id" alone and "!identity" ask for the latest track. */
  lemma NoArgumentExamples()
    ensures CommandDelta("!id") == Some(0)
    ensures CommandDelta("!identity") == Some(0)
  {
    assert ToLower("!id") == "!id";
    assert HasPrefix("!id", CommandPrefix);
    SplitNoSep("!id", ' ');
    NoArgumentMeansLatest("!id");

    var word := "!identity";
    assert ToLower(word) == word;
    assert HasPrefix(word, CommandPrefix);
    SplitNoSep(word, ' ');
    NoArgumentMeansLatest(word);
  }

  /** Lines that do not start with "!id" make no lookup. */
  lemma NotACommand()
    ensures CommandDelta("hello") == None
    ensures CommandDelta("id 5m") == None
  {
    assert ToLower("hello")[0] == 'h';
    NotCommand("hello");
    assert ToLower("id 5m")[0] == 'i';
    NotCommand("id 5m");
  }
}
