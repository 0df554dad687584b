# TrackStar Twitch chat: a Dafny model of the `Chat` component

The TrackStar Twitch-chat plugin posts the currently playing track to a
Twitch channel. Its `Chat` component (`go/twitchchat.go`) works in three
stages:

- **Startup.** It subscribes to four bus topics and loads its configuration
  from the key-value store. It fills in the profile it posts as, and
  defaults a blank template.
- **Handlers.** Each bus message goes to one of five handlers:
  - configuration get;
  - configuration set;
  - a TrackStar track update, announced when `announce` is on;
  - a Twitch chat message, where an `!id [duration]` command asks TrackStar
    for the track played that long ago;
  - a request to announce the current track.
- **Sending.** Every announcement goes through one shared step. It renders
  the template over `{"track_update": <track as JSON>}` and sends at most one
  chat message.

The model is organised as follows:

- `wrappers.dfy`: `Option` and `Result`.
- `gostrings.dfy` (`GoStrings`): the Go `strings` functions the command
  parser relies on. These are `ToLower`, `HasPrefix`, `Split` with a
  one-character separator, and `TrimSpace` with Go's `unicode.IsSpace`.
- `gotime.dfy` (`GoTime`): `time.ParseDuration` on integer amounts, with
  Go's unit table, sign handling and overflow limits. It also has the
  conversion `uint32(d / time.Second)`: truncating division followed by a
  wrap modulo 2^32.
- `command.dfy` (`ChatCommand`): the `!id` command.
  - `CommandDelta` is the look-back a chat line asks for, or no lookup.
  - `CommandArgument` is the handler's token loop, proved against the
    function `SelectArgument`.
- `twitchchat.dfy` (`TwitchChat`):
  - the routing table;
  - the configuration datatypes;
  - one specification function per handler, giving its effect: the
    outcome, the lookups issued and the chat messages sent;
  - startup as a function (`Bootstrap`);
  - the class `Chat`. Its fields are the configuration in memory, the
    store's record, and the lookups and chat messages sent so far. Its
    methods are the handlers, each proved to produce exactly the effect its
    specification function gives.

Everything the bus and the store answer is a parameter of the model. That
covers subscribing, loading, writing, listing profiles, marshalling,
unmarshalling, waiting for a reply and rendering.

Go's nil dereferences are modelled as a `Crash` outcome rather than as
preconditions. There are two:

- The configuration is nil after a set request that carries none. Reading
  `cfg.Announce` or `cfg.SendAs` then crashes.
- A chat event may lack its message part.

Four behaviours of the code are reproduced as written, and lemmas exhibit
them:

- When no channel is configured, startup overwrites the profile with the
  empty channel (`go/twitchchat.go:67`). This happens even right after
  filling the profile in (`BootstrapNoChannelNoProfile`).
- The configuration page advertises `!id 3h47m16` (`web/embed_ctrl.ts:78`).
  The final 16 has no unit, so this asks for the latest track
  (`HelpTextExample`). With the unit, `!id 3h47m16s` asks for 13636
  seconds (`HelpTextWithUnit`).
- The look-back is `uint32(duration / time.Second)`. A negative duration
  wraps to a large look-back (`NegativeSecondsWrap`), and so does one of
  2^32 seconds or more: `!id 1193047h` asks for 1904 (`LongLookBackWraps`).
- Go's duration parser keeps its running total in a uint64 and checks it
  against 2^63 only after each addition. Two groups of 2^63 ns wrap the
  total to 0, and the duration parses as zero (`AccumulatorWraps`).

The code is followed wherever it differs from a plain reading of the
plugin's behaviour:

- An announce request whose wait fails or times out gets no reply at all.
- An announce request that succeeds gets a reply with no body, not the
  rendered text.
- The chat-message handler ignores the error field of TrackStar's answer.

## Model

| member | source | states |
|---|---|---|
| GoStrings.LowerChar | go/twitchchat.go:186 | `unicode.ToLower` on one character: A-Z move up by 32, and every character outside the four modelled upper-case sets is kept |
| GoStrings.ToLower | go/twitchchat.go:186 | `strings.ToLower` keeps the length and lower-cases every character in place |
| GoStrings.ToLowerAppend | go/twitchchat.go:186 | lower-casing a concatenation is the concatenation of the lower-cased parts |
| GoStrings.HasPrefix | go/twitchchat.go:187 | `strings.HasPrefix`: true exactly when the string is at least as long as the prefix and agrees with it at every position; the string is then the prefix followed by the rest |
| GoStrings.Split | go/twitchchat.go:192 | `strings.Split` on a one-character separator: at least one piece, no piece contains the separator, and joining the pieces with the separator gives back the input |
| GoStrings.SplitNoSep | go/twitchchat.go:192 | a string without the separator splits into itself alone |
| GoStrings.SplitAt | go/twitchchat.go:192 | splitting at an occurrence of the separator splits both sides independently |
| GoStrings.TrimSpace | go/twitchchat.go:193 | `strings.TrimSpace` gives a contiguous slice of the input, and that slice neither starts nor ends with a space |
| GoStrings.TrimSpaceRemovesSpaces | go/twitchchat.go:193 | everything `TrimSpace` drops, before and after the slice it keeps, is white space |
| GoStrings.TrimSpaceBlank | go/twitchchat.go:73 | `TrimSpace(s) == ""` exactly when every character of `s` is white space |
| GoStrings.TrimSpaceUnchanged | go/twitchchat.go:193 | a string with no space at either end is its own trim |
| GoTime.NextGroup | go/twitchchat.go:200 | one `<digits><unit>` group of a duration: the rest is a strict suffix; the group ends in a unit character; the unit is positive and the amount at most 2^63; the rest starts with a digit or '.' |
| GoTime.ParseGroups | go/twitchchat.go:200 | the groups of a duration added up as Go's uint64 loop does: the total never exceeds 2^63, and no text adds nothing |
| GoTime.NextGroupThen | go/twitchchat.go:200 | the group reader on `<n><unit>` followed by the next group reads back `n` and the unit's size and stops where the next digits start; an amount above 2^63 is an overflow |
| GoTime.GroupThen | go/twitchchat.go:200 | a group followed by more groups: rejected when its amount exceeds 2^63 / unit; otherwise the total becomes `(d + n * unit) mod 2^64`, rejected above 2^63, and the remaining groups are read from it |
| GoTime.GroupAdds | go/twitchchat.go:200 | a group that keeps the total within 2^63 adds `n * unit` to it |
| GoTime.GroupWraps | go/twitchchat.go:200 | a group of at most 2^63 ns that takes the total to 2^64 or more wraps it to 0, and parsing goes on from 0 |
| GoTime.GroupTooLarge | go/twitchchat.go:200 | a single group above 2^63 ns is rejected |
| GoTime.DecimalWithUnitRange | go/twitchchat.go:200 | `<n><unit>` parses exactly when `n * unit < 2^63`, and `-<n><unit>` exactly when `n * unit <= 2^63`: +2^63 ns is rejected, -2^63 ns accepted |
| GoTime.BodyWithSign | go/twitchchat.go:200 | a body starting with a digit is read unsigned, and behind a '-' the same body is read negated |
| GoTime.ZeroDurations | go/twitchchat.go:200 | "0", "+0" and "-0" parse to 0; a sign alone is rejected |
| GoTime.AccumulatorWraps | go/twitchchat.go:200 | two groups of exactly 2^63 ns wrap the uint64 total to 0 and parse as a zero duration |
| GoTime.HoursMinutesSeconds | go/twitchchat.go:200 | `<h>h<m>m<s>s` parses to the sum of its three groups when that fits an int64 |
| GoTime.HoursMinutesSecondsExample | go/twitchchat.go:200 | "3h47m16s" is 13636 seconds |
| GoTime.ParseDuration | go/twitchchat.go:200 | `time.ParseDuration` on integer amounts: any parsed value fits an int64, and the empty string is rejected |
| GoTime.ParseMagnitude | go/twitchchat.go:200 | the unsigned part of a duration is at most 2^63, and an empty one is rejected |
| GoTime.Signed | go/twitchchat.go:200 | the sign step keeps every result within int64, down to -2^63 |
| GoTime.TruncDiv | go/twitchchat.go:202 | Go's `/` on int64 truncates toward zero: the remainder `a - q * b` lies in `[0, b)` for `a >= 0` and in `(-b, 0]` for `a < 0` |
| GoTime.ToUint32 | go/twitchchat.go:202 | `uint32(x)` is below 2^32 and congruent to `x` modulo 2^32 |
| GoTime.WholeSeconds | go/twitchchat.go:202 | `uint32(d / time.Second)` is below 2^32 and congruent modulo 2^32 to the truncated quotient, so look-backs of 2^32 seconds or more wrap |
| GoTime.WholeSecondsInRange | go/twitchchat.go:202 | a forward duration below 2^32 seconds gives its whole seconds rounded down; a backward one gives 2^32 minus its whole seconds rounded toward zero, wrapped |
| GoTime.WholeSecondsOfSeconds | go/twitchchat.go:202 | exactly `k` seconds gives `k` for `0 <= k < 2^32`, `2^32 + k` for negative `k` down to `-2^32`, and `k mod 2^32` for every `k >= 0` |
| GoTime.NegativeSecondsAmount | go/twitchchat.go:200-202 | `n` units making `k` seconds, negated, fit the parser and give `2^32 - k` whole seconds |
| GoTime.Decimal | go/twitchchat.go:200 | the decimal form of a number: non-empty, all digits |
| GoTime.DecimalValue | go/twitchchat.go:200 | reading the decimal form back gives the number |
| GoTime.ParseDecimalWithUnit | go/twitchchat.go:200 | round trip: `<n><unit>` parses to `n` times the unit for every amount below 2^63 |
| GoTime.ParseNegatedDecimalWithUnit | go/twitchchat.go:200 | round trip: `-<n><unit>` parses to minus `n` times the unit, down to -2^63 |
| GoTime.ParseRejectsNonNumeric | go/twitchchat.go:200 | a duration not starting with a sign or a digit is rejected |
| GoTime.TrailingDigitRejectedGroups | go/twitchchat.go:200 | groups whose last character is a digit are rejected, whatever the running total |
| GoTime.TrailingDigitRejected | go/twitchchat.go:200 | a duration ending in a digit, other than "0", "-0" and "+0", is rejected |
| ChatCommand.FirstNonBlank | go/twitchchat.go:192-198 | the index of the first piece that is not blank after trimming: every earlier piece is blank, and that piece is not |
| ChatCommand.FirstNonBlankAt | go/twitchchat.go:192-198 | blanks before `k`, and `k` past the end or not blank, determine `FirstNonBlank` uniquely |
| ChatCommand.SelectArgument | go/twitchchat.go:192-198 | the argument is the whole text, or a non-empty piece with no space that is its own trim |
| ChatCommand.TrimmedPiece | go/twitchchat.go:193 | trimming a piece without spaces gives a piece without spaces that trimming leaves unchanged |
| ChatCommand.CommandArgument | go/twitchchat.go:191-198 | the handler's loop returns exactly `SelectArgument` of the lower-cased text: the first non-blank trimmed piece after the first space, or the whole text |
| ChatCommand.ArgumentDelta | go/twitchchat.go:199-204 | the look-back is below 2^32, and 0 for an argument that does not parse |
| ChatCommand.CommandDelta | go/twitchchat.go:186-204 | a lookup is made exactly when the lower-cased line starts with "!id", and its look-back is below 2^32 |
| ChatCommand.LowerCaseFixed | go/twitchchat.go:186 | text with no upper-case letter is its own lower case |
| ChatCommand.UnitNameShape | go/twitchchat.go:186-200 | every unit name is lower case, non-empty, and ends in neither a space nor a digit |
| ChatCommand.LowerCommandLine | go/twitchchat.go:186 | lower-casing `word + " " + t` gives "!id " followed by `t` when `word` lower-cases to "!id" and `t` is lower case |
| ChatCommand.SingleArgument | go/twitchchat.go:192-198 | in "!id t", a clean piece `t` is the selected argument |
| ChatCommand.CommandOfArgument | go/twitchchat.go:186-204 | "!id" in any case, one space and one clean argument: the look-back is that argument's |
| ChatCommand.AmountArgumentShape | go/twitchchat.go:192-198 | an amount argument `[-]<n><unit>` is non-empty, has no space, is not padded with spaces, and is lower case |
| ChatCommand.CommandWithAmount | go/twitchchat.go:186-204 | "!id <n><unit>": the look-back is the amount in whole seconds, wrapped to 32 bits |
| ChatCommand.CommandWithNegativeAmount | go/twitchchat.go:186-204 | "!id -<n><unit>": the look-back is the negated amount in whole seconds, wrapped to 32 bits |
| ChatCommand.NegatedAmountArgument | go/twitchchat.go:199-204 | the argument "-<n><unit>" asks for the negated amount in whole seconds |
| ChatCommand.ParsedArgument | go/twitchchat.go:199-204 | an argument that parses asks for its duration in whole seconds |
| ChatCommand.NoArgumentMeansLatest | go/twitchchat.go:192-204 | with no non-blank piece after the first space, the whole text stays the argument, fails to parse, and the look-back is 0 |
| ChatCommand.ArgumentEndingInDigit | go/twitchchat.go:199-204 | an argument ending in a digit lacks a unit on its last amount: the look-back is 0 |
| ChatCommand.NotCommand | go/twitchchat.go:186-189 | a line that does not start with "!id" after lower-casing makes no lookup |
| ChatCommand.CommandSeconds | go/twitchchat.go:199-204 | "!id <n><unit>" naming exactly `k` seconds, with `k < 2^32`, asks for `k` |
| ChatCommand.CommandNegativeSeconds | go/twitchchat.go:199-204 | "!id -<n><unit>" naming `k > 0` seconds asks for `2^32 - k` |
| ChatCommand.UpperCaseSeconds | go/twitchchat.go:186-204 | "!ID 90s" asks for 90 |
| ChatCommand.Minutes | go/twitchchat.go:186-204 | "!id 5m" asks for 300 |
| ChatCommand.NegativeSecondsWrap | go/twitchchat.go:199-204 | "!id -90s" asks for 4294967206 |
| ChatCommand.HelpTextExample | web/embed_ctrl.ts:78 | the advertised "!id 3h47m16" asks for 0, the latest track |
| ChatCommand.HelpTextWithUnit | go/twitchchat.go:186-204 | "!id 3h47m16s", with a unit on its last group, asks for 13636 |
| ChatCommand.LongLookBackWraps | go/twitchchat.go:199-204 | "!id 1193047h", 4294969200 seconds back, asks for 1904 after the 32-bit wrap |
| ChatCommand.NoArgumentExamples | go/twitchchat.go:186-204 | "!id" and "!identity" both ask for 0 |
| ChatCommand.NotACommand | go/twitchchat.go:186-189 | "hello" and "id 5m" make no lookup |
| TwitchChat.TopicsDistinct | go/twitchchat.go:21-28 | the four subscribed topics are pairwise different |
| TwitchChat.Route | go/twitchchat.go:77-91 | the routing table as a total function from (topic, type) to a handler: a pair is routed exactly when some handler is registered under that topic and type |
| TwitchChat.RoutingTable | go/twitchchat.go:77-91 | a (topic, type) pair reaches a handler exactly when it is one of the table's pairs |
| TwitchChat.RoutingInverse | go/twitchchat.go:77-91 | each handler is reached by the pair it is registered under, and a pair that reaches a handler is that handler's |
| TwitchChat.RoutedPairsCount | go/twitchchat.go:77-91 | the table has five distinct entries, one per handler |
| TwitchChat.WithBody | go/twitchchat.go:104-106 | a reply carries its body, or the marshalling error and no body |
| TwitchChat.Persisted | go/twitchchat.go:109-110 | what a write stores: a configuration as it is, and a nil one as the record with empty profile, channel and template and announcing off |
| TwitchChat.SetConfigStep | go/twitchchat.go:117-135 | a malformed set changes nothing and replies with the decoding error; otherwise memory takes the request's configuration, which may be nil, even when the write fails; a failed write keeps the store and replies with the error text as user message; a successful one stores and echoes the new configuration |
| TwitchChat.RenderContext | go/twitchchat.go:155-159 | the context is `{"track_update": ` followed by the JSON and `}`, 18 characters longer than the JSON |
| TwitchChat.RenderContextInjective | go/twitchchat.go:155-159 | different track JSON never gives the same render context |
| TwitchChat.TemplateOf | go/twitchchat.go:160 | `GetTemplate` on a possibly nil configuration reads without crashing: the template of the record a write would store, so empty when nil |
| TwitchChat.SendStepOf | go/twitchchat.go:149-179 | one chat message with the rendered text, sent as `sendAs` to `sendTo`, exactly when encoding and rendering work, the configuration is not nil and the chat request marshals; a crash exactly when rendering works on a nil configuration |
| TwitchChat.SentBy | go/twitchchat.go:178 | a sending step sends at most one message, and one exactly when it emits |
| TwitchChat.Finish | go/twitchchat.go:145-146 | a handler ending in the sending step keeps its lookups, sends what the step sends, and crashes when the step does |
| TwitchChat.TrackUpdateEffect | go/twitchchat.go:137-147 | a track update never replies and never looks a track up; it crashes exactly on a nil configuration, and then sends nothing; with announcing off or an undecodable event it does nothing; otherwise it sends what the sending step sends |
| TwitchChat.ChatMessageEffect | go/twitchchat.go:181-223 | never a reply; a lookup with the command's look-back and a 5000 ms wait exactly when the event decodes, its message is present, it is an "!id" command and the request encodes; a message is sent only after a decodable answer, and then it is what the sending step sends; it crashes exactly on a missing message part, or when a decodable answer meets the sending step's nil-configuration crash |
| TwitchChat.TrackAnnounceEffect | go/twitchchat.go:225-252 | always a lookup of the latest track with a 1000 ms wait, unless it does not encode; a failed wait gives no reply; TrackStar's error or a decoding error is copied to the reply and nothing is sent; a clean answer sends what the sending step sends and replies with no error and no body, even when that step gives up; it crashes exactly when a clean answer meets the step's nil-configuration crash |
| TwitchChat.BareCommandAnnouncesLikeRequest | go/twitchchat.go:181-252 | "!id" and an announce request ask for the same look-back and, given the same answer, send the same message |
| TwitchChat.UpdateAnnouncesLikeRequest | go/twitchchat.go:137-252 | with announcing on, a track update sends the same message as an announce request answered with that track |
| TwitchChat.FirstFailed | go/twitchchat.go:38-44 | the index of the first failed subscription: every earlier one succeeded, and that one failed |
| TwitchChat.FirstFailedAt | go/twitchchat.go:38-44 | successes before `k`, and `k` past the end or a failure, determine `FirstFailed` uniquely |
| TwitchChat.Written | go/twitchchat.go:62-64 | a failed write is the startup error "writing config: ..."; a successful one makes the store hold the configuration in memory |
| TwitchChat.FillSendAs | go/twitchchat.go:53-65 | fails exactly when `sendAs` is empty and profiles cannot be listed, none exist, or the write fails; otherwise an empty `sendAs` becomes the first profile and is stored, and a set one is left alone |
| TwitchChat.CopySendTo | go/twitchchat.go:66-71 | fails exactly when `sendTo` is empty and the write fails; otherwise an empty `sendTo` empties `sendAs` and is stored, and a set one leaves everything alone |
| TwitchChat.WithDefaultTemplate | go/twitchchat.go:73-75 | the template becomes the default exactly when it is blank; the other fields are kept |
| TwitchChat.DefaultedTemplateNotBlank | go/twitchchat.go:73-75 | after defaulting, the template is never blank |
| TwitchChat.ResolveConfig | go/twitchchat.go:46-75 | a started configuration is the stored record with the template defaulted, and the store keeps the loaded template, however blank |
| TwitchChat.ResolvedProfile | go/twitchchat.go:53-71 | after startup the channel and announce flag are the loaded ones; the profile is "" without a channel, else the first listed profile if none was loaded, else the loaded one |
| TwitchChat.Bootstrap | go/twitchchat.go:37-75 | a startup that passes its subscriptions is the configuration resolution |
| TwitchChat.BootstrapFails | go/twitchchat.go:37-71 | startup fails exactly on a failed subscription, a load error other than not-found, an empty `sendAs` with no profile or a failed write, or an empty `sendTo` whose write fails |
| TwitchChat.BootstrapNoChannelNoProfile | go/twitchchat.go:66-71 | after startup, an empty channel always comes with an empty profile |
| TwitchChat.Chat.constructor | go/twitchchat.go:46-48 | a new component holds the empty configuration and has sent nothing |
| TwitchChat.Chat.New | go/twitchchat.go:37-93 | the subscription loop and the step-by-step startup fail exactly when `Bootstrap` does, with its error; otherwise the component holds `Bootstrap`'s configuration and record and has sent nothing |
| TwitchChat.Chat.WriteCfg | go/twitchchat.go:109-115 | a failed write returns its error and leaves the store; a successful one stores the configuration in memory, a nil one as the empty record |
| TwitchChat.Chat.HandleRequestGetConfig | go/twitchchat.go:103-107 | the reply carries the configuration in memory, possibly nil, and reading it changes nothing |
| TwitchChat.Chat.HandleCommandSetConfig | go/twitchchat.go:117-135 | the new memory, store and reply are those of `SetConfigStep` |
| TwitchChat.Chat.SendTrackUpdate | go/twitchchat.go:149-179 | the buffer built piece by piece is the render context; the outbox grows by what `SendStepOf` sends; it crashes when that step does |
| TwitchChat.Chat.HandleTrackUpdate | go/twitchchat.go:137-147 | outcome and outbox are those of `TrackUpdateEffect` |
| TwitchChat.Chat.HandleChatMessage | go/twitchchat.go:181-223 | outcome, lookups and outbox are those of `ChatMessageEffect`, through the loop `CommandArgument` |
| TwitchChat.Chat.HandleRequestTrackAnnounce | go/twitchchat.go:225-252 | outcome, lookups and outbox are those of `TrackAnnounceEffect` |
| TwitchChat.SetThenGet | go/twitchchat.go:103-135 | a get after a set answers with the configuration just set, whether or not the write worked; the configuration in memory becomes the one set, the store follows the write, and nothing is sent or looked up |

## Left out

- `go/main/main.go` is not part of this model. It holds the WebAssembly
  exports: `Initialize` returns -1 exactly when `New` fails, and `Recv`
  always returns 0.
- `magefile.go`, `web/embed_ctrl.ts` and `web/controller.ts` are left out:
  they are build tooling and browser UI. Only the help text's example is
  used.
- The bus library's internals are left out. These are
  `TopicRouter.Handle`, `Subscribe`, `Send`, `WaitForReply`, `DefaultReply`,
  `KVGetProto` and `KVSetProto`. Their results are parameters:
  - the `subscribe` function;
  - the load result;
  - one write outcome per write;
  - the lookup outcome.

  Correlation ids and the wait itself (the 5000 ms and 1000 ms timeouts)
  are not modelled. Only the timeout values are recorded with each lookup.
- Protobuf and JSON marshalling are left out. Each encode or decode is a
  success-or-error parameter. A track is known only by the outcome of
  encoding it as JSON.
- `svc.RenderTemplate` (Go's text/template) is left out and is the
  `Renderer` function parameter.
- The numeric message types come from generated protocol code. They are the
  `TypeCodes` parameter. The two request types are assumed to differ, as
  the Go map literal requires.
- Logging is left out: it has no effect on behaviour.
- Of a `bus.Error`, only the detail and the user message are modelled.
- GoTime.ParseDuration: amounts with a fractional part are rejected.
  Go accepts them (`1.5h`, `1.h`, `.5h`) and scales the fraction in
  floating point.
- GoStrings.LowerChar: only two kinds of character are lower-cased. The
  first is every character whose lower case under `unicode.ToLower` is
  ASCII: A-Z, U+0130 (to `i`) and the Kelvin sign U+212A (to `k`). The
  second is U+039C, whose lower case `μ` starts the unit `μs`. Every other
  character is kept. A line can become an `!id` command or a duration only
  through ASCII characters and `μ`, so the other capitals cannot change a
  look-back.
- GoStrings.Split: only a one-character separator is modelled, which is
  the only kind the handler uses.
- TwitchChat.SendTrackUpdate: the bus topic and type of the outgoing chat
  request are not recorded. Each sent message keeps its text, profile and
  channel.
- TwitchChat.Lookup: the bus topic and type of the TrackStar request are
  not recorded (`go/twitchchat.go:206-209`, `go/twitchchat.go:227-230`).
  A lookup keeps only its look-back and its timeout.
