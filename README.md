# Discord conversation logger — model of the logging sink

The repository bridges a stdio RPC server to Discord: every conversational
turn is posted as an embed in one dedicated thread. This project models the
sink in `src/discord.rs`:

- `Handler`, whose `ctx` is a write-once cell (`OnceLock`). The first gateway
  `ready` event fills it; later ones are ignored. The logger and the gateway
  client share it through an `Arc`. In the model they share one `Handler`
  object.
- `DiscordLogger::new` and `DiscordLogger::log`. `log` runs in a fixed order:
  1. It checks the gate and fails with "The connection with Discord is not ready" when the gate is empty.
  2. It resolves the destination thread through a memoising `OnceCell`. The first successful creation is cached for good; a failed one is not cached and is retried on the next call.
  3. It builds the embed. The colour comes from the role, the title is the speech-balloon emoji, a space and the upper-cased role, the description is the message, and a footer is added only when a context annotation is given.
  4. It sends the embed to the thread.

Files:
- `platform.dfy` (module `Platform`): the serenity types the sink touches (channel ids as non-zero 64-bit values, the opaque gateway `Context`, the thread-creation request, API errors), plus `Option` and `Result`.
- `embeds.dfy` (module `Embeds`): the pure formatter, which is the role→colour match and the embed builder chain.
- `discord.dfy` (module `Discord`): `LogStep`, the specification of one `log` call, and `Run`, which folds `ready` events and `log` calls over a sequence. `Consistent` is the invariant between the state and the trace of platform calls. The classes `Handler` and `DiscordLogger` are proved against these.

The two platform calls (`create_thread`, `send_message`) are not modelled as
code. Their answers arrive in a `Replies` value, together with the clock
reading that `Timestamp::now()` would give. The calls that `log` makes are recorded
in the ghost field `DiscordLogger.effects`. The source returns `anyhow` errors.
The model tells the three failure points apart: `NotReady`,
`ThreadUnavailable(cause)` and `DispatchFailed(cause)`. Each of the last two
carries the platform error that the source propagates with `?`.

## Model

| member | source | states |
|---|---|---|
| `Embeds.RoleColour` | src/discord.rs:89-94 | each of the four colours is produced exactly for its role: "human", "assistant", "system", and every other role for the default grey |
| `Embeds.ColoursDistinct` | src/discord.rs:89-94 | the four colours are pairwise distinct |
| `Embeds.UpperChar` | src/discord.rs:97 | an ASCII lower-case letter maps to its upper-case letter; every other character is kept |
| `Embeds.ToUpper` | src/discord.rs:97 | upper-casing keeps the length, works character by character, and leaves no ASCII lower-case letter |
| `Embeds.ToUpperIdempotent` | src/discord.rs:97 | upper-casing an upper-cased role changes nothing |
| `Embeds.BuildEmbed` | src/discord.rs:96-104 | title is the emoji prefix followed by the upper-cased role; description is the message; colour is the role's colour; timestamp is the given time; the footer is present iff a context is given and then holds it |
| `Embeds.ReadBuildEmbed` | src/discord.rs:96-104 | reading a built embed back recovers the upper-cased role, the message, the context and the colour |
| `Embeds.BuildEmbedSame` | src/discord.rs:96-104 | two entries give the same embed at one instant iff they agree on upper-cased role, colour, message and context |
| `Discord.ThreadRequestFor` | src/discord.rs:80-82 | the create request uses the configured thread name, a one-week auto-archive and the public-thread kind |
| `Discord.SetOnce` | src/discord.rs:38 | a set gate keeps its handle; an empty gate takes the new one |
| `Discord.LogStep` | src/discord.rs:66-111 | not-ready iff the gate is empty, with nothing created, sent or cached; exactly one create request (the configured one, through the gate's context, first) iff the gate is set and no thread is cached; a cached id never changes and a failed creation leaves the cache empty; one send, last, to the resolved thread iff a thread is resolved; the result is Ok iff resolved and sent, ThreadUnavailable iff creation was needed and failed, DispatchFailed iff the send failed, each error carrying the platform's error |
| `Discord.InitialConsistent` | src/discord.rs:50-57 | a fresh logger with an empty trace satisfies the trace invariant |
| `Discord.ReadyKeepsConsistent` | src/discord.rs:37-39 | a `ready` event keeps the trace invariant |
| `Discord.LogKeepsConsistent` | src/discord.rs:66-111 | one `log` call keeps the trace invariant: every call went through the gate's handle, every create is the configured request, every send went to the cached thread, and no create follows a send |
| `Discord.RunKeepsConsistent` | src/discord.rs:66-111 | any sequence of `ready` events and `log` calls keeps the trace invariant |
| `Discord.LifetimeConsistent` | src/discord.rs:66-111 | the whole trace of a logger's lifetime satisfies the invariant |
| `Discord.GateFirstWriterWins` | src/discord.rs:37-39 | after any events the gate holds its earlier handle, or else the handle of the first `ready` event |
| `Discord.NotReadyRunIsInert` | src/discord.rs:67-71 | before any `ready`, every `log` returns NotReady, no platform call is made and the state is unchanged |
| `Discord.CachedThreadIsFinal` | src/discord.rs:73-87 | once a thread id is cached, it stays cached, no create request is made, and every call is a send to that id |
| `Discord.FailedCreationIsRetried` | src/discord.rs:75-87 | a failed creation returns ThreadUnavailable, sends nothing and caches nothing, so the next call issues the create request again |
| `Discord.Handler.constructor` | src/discord.rs:27-33 | a new handler has an empty gate |
| `Discord.Handler.Ready` | src/discord.rs:37-39 | the gate becomes `SetOnce` of its old value and the new context |
| `Discord.DiscordLogger.constructor` | src/discord.rs:50-57 | a new logger keeps the channel and thread name, has a fresh empty gate, no cached thread and an empty trace |
| `Discord.DiscordLogger.Log` | src/discord.rs:66-111 | the result, the new cache and the calls appended to the trace are exactly those of `LogStep`; the trace invariant is kept |
| `Discord.ShoutedRoles` | src/discord.rs:97 | "assistant" and "human" upper-case to "ASSISTANT" and "HUMAN" |
| `Discord.Scenario` | src/discord.rs:66-111 | after `ready`, an assistant turn with context "req-7" creates the thread and posts a green "ASSISTANT" embed with that footer; a following human turn reuses the thread and posts a blue "HUMAN" embed with no footer; both succeed |

## Left out

- `discord::start` (src/discord.rs:14-20): building the serenity client and running the gateway loop is network I/O inside a library.
- `DiscordLogger::handler`, the accessor (src/discord.rs:59-61): it is the `const` field `handler`, which the logger and the client share.
- `src/main.rs`: the following are process setup, not sink logic.
  - argument and environment parsing;
  - the working-directory lookup with its `"unknown"` fallback;
  - the RPC server on stdio;
  - the `tokio::select!` race that ends the process when either the RPC session or the gateway client ends.
  The thread name `"{name} [{cwd}]"` is taken as the given `logThreadName`.
- Concurrency: `OnceLock`/`OnceCell` also guarantee that concurrent first callers share one in-flight creation. This is a runtime property. The model treats `log` calls as sequential and states only sequential memoisation and retry.
- `create_thread` and `send_message` are opaque. Their replies are parameters, so the model does not say what Discord does with a request.
- `Timestamp::now()` is a parameter (the clock value in `Replies`).
- `Embeds.ToUpper`: Rust's `to_uppercase` is full Unicode case mapping, which can change the length (for example "ß" becomes "SS"). The model only upper-cases ASCII letters, so it states nothing about other characters.
- The `Logger` trait and `ConversationLogger` (`crate::logger`) are not part of this model.
