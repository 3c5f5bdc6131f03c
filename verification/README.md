# kube-image-deployer core, modelled in Dafny

This project models three small sequential kernels of kube-image-deployer and proves properties of them.

- **The Docker remote-registry facade** (`remoteRegistry/docker/docker.go`) turns a repository URL and a tag into a pinned image reference.
  - An exact tag becomes `url@<digest>`, cached under the key `url:tag`.
  - A tag containing `*` becomes `url:<selected tag>`, cached under the key `url___tag`.
  - Both paths pick a registry keychain by matching configured prefixes against the URL.
  - The registry client, the cache and the version selector are oracles. The client and the selector are fields of a `Registry` value. The cache is a `CacheGet` function.
  - Both `Registry` and the cache are passed to each call, so the cache's answers may differ from one call to the next, as entries expire and are recomputed.
  - What the facade hands the cache is a defunctionalised closure (`Compute`). `RunCompute` gives what that closure does when the cache runs it.
  - No expiry and no version ranking are assumed of the oracles.
  - Go's map iteration order is unspecified. `KeychainFor` therefore admits the keychain of *any* configured key that prefixes the URL.
  - `GetAuthKeyChain` picks the next key to try with `:|`.
- **The Google Chat log backend** (`logger/googlechat.go`) keeps a FIFO pool of log records.
  - Each sender tick pops at most the oldest record and lays it out as a card.
  - The card holds one text paragraph, then the columns, packed at most two per widget.
  - The greedy packing loop of `toChatMsg` is proved equal to a pairwise reference layout (`PackColumns`).
- **The Slack log backend** (`logger/slack.go`) keeps a pool of log records.
  - Each sender tick takes the whole pool at once.
  - It formats one line per record, in order, and fences the text with triple backticks.

Modules:
- `Wrappers`: Option and Result.
- `Fmt`: Go's `%d` and its parser.
- `LogMessage`: the record both backends queue.
- `GoogleChat`, `Slack` and `Docker`: one module per source file.

Inputs that are left outside the model:
- The runtime caller lookup is a `CallStack` parameter (`int -> Option<Frame>`).
- The current time is a parameter, already rendered as RFC 3339 text.
- The HTTP send is left out. The tick steps return the payload they would send.

Behaviour of the code that the model keeps as written:
- **Credential choice.** `getAuthKeyChain` ranges over an unordered Go map, so no rule order exists (docker.go:68). When several configured prefixes match, any of their keychains may be returned.
- **Digest path errors.** The digest path returns `url + "@" + hash` together with the cache's error (docker.go:62), not an empty string.

## Model

| member | source | states |
|---|---|---|
| `Docker.RemoteRegistryDocker.GetImageString` | remoteRegistry/docker/docker.go:30-38 | A tag containing `*` gets the highest-version result and any other tag gets the digest result. In both cases the keychain is one admissible for the URL. |
| `Docker.RemoteRegistryDocker.GetImageDigestHash` | remoteRegistry/docker/docker.go:40-64 | The result equals the digest path, under the cache's answers at this call, for some keychain admissible for `url`. The keychain depends on the URL only, never on the tag. |
| `Docker.RemoteRegistryDocker.GetImageHighestVersionTag` | remoteRegistry/docker/docker.go:78-106 | The result equals the highest-version path, under the cache's answers at this call, for some keychain admissible for `url`. The keychain depends on the URL only, never on the tag. |
| `Docker.RemoteRegistryDocker.GetAuthKeyChain` | remoteRegistry/docker/docker.go:66-76 | Keys are tried one at a time in an unspecified order. The result is the keychain of some configured key that prefixes the URL. If no key prefixes it, the result is the default keychain. |
| `Docker.RemoteRegistryDocker.constructor` | remoteRegistry/docker/docker.go:20-27 | The facade keeps the given prefix map. |
| `Docker.KeychainForDetermined` | remoteRegistry/docker/docker.go:66-76 | When every matching key maps to the same keychain, that keychain is the only admissible result. |
| `Docker.KeychainForAmbiguous` | remoteRegistry/docker/docker.go:68-72 | When two matching keys map to different keychains, either may be returned, as map order decides. |
| `Docker.RunCompute` | remoteRegistry/docker/docker.go:50-98 | The digest closure succeeds exactly when both the image fetch and the digest succeed. The listing closure succeeds exactly when both the listing and the selection succeed. Every failure returns `""` with the error. |
| `Docker.DigestKey` | remoteRegistry/docker/docker.go:42 | The digest-path key is the URL, a colon, then the tag. |
| `Docker.HighestKey` | remoteRegistry/docker/docker.go:85 | The wildcard-path key is the URL, `___`, then the tag. |
| `Docker.DigestHashWith` | remoteRegistry/docker/docker.go:42-62 | A parse failure of `url:tag` gives `("", err)`. Otherwise the returned string starts with `url@`. |
| `Docker.DigestCacheAnswer` | remoteRegistry/docker/docker.go:50-62 | For any cache answer `h` under `url:tag`, hit or miss, the result is `url@` followed by `h`'s value, beside `h`'s error. |
| `Docker.DigestParseFailure` | remoteRegistry/docker/docker.go:44-48 | On a parse failure the result is the same whatever the cache does, so no lookup or fetch happens. |
| `Docker.DigestCacheKey` | remoteRegistry/docker/docker.go:42-50 | The digest path consults the cache only under the key `url + ":" + tag`. |
| `Docker.DigestFetched` | remoteRegistry/docker/docker.go:50-62 | On a cache miss, where the cache runs the computation, the result is `url@<digest>` with the registry's digest unaltered and a nil error. An image or digest error is returned beside `url@`. |
| `Docker.HighestVersionTagWith` | remoteRegistry/docker/docker.go:78-106 | Every error comes with `""`. Success returns a string starting with `url:`. A repository-parse error gives `("", err)`. |
| `Docker.HighestCacheAnswer` | remoteRegistry/docker/docker.go:86-105 | For any cache answer `t` under `url___tag`, hit or miss, the result is `""` with `t`'s error when there is one. Otherwise it is `url:` followed by `t`'s value, with a nil error. |
| `Docker.HighestParseFailure` | remoteRegistry/docker/docker.go:80-83 | On a repository-parse failure the result is the same whatever the cache does, so no listing happens. |
| `Docker.HighestCacheKey` | remoteRegistry/docker/docker.go:85-86 | The highest-version path consults the cache only under the key `url + "___" + tag`. |
| `Docker.HighestSelected` | remoteRegistry/docker/docker.go:86-105 | On a cache miss, where the cache runs the computation, a listing error or a selection error gives `""` with that error. A selected tag `t` gives `url:t` with a nil error. |
| `Docker.CacheKeysDistinctForUrl` | remoteRegistry/docker/docker.go:85 | For one URL, an exact-tag cache key never equals a wildcard cache key. |
| `Docker.CacheKeysDistinct` | remoteRegistry/docker/docker.go:31-36 | For URLs without `*`, an exact-tag key never equals a wildcard key, even across different URLs. |
| `LogMessage.NewMessage` | logger/slack.go:65-76 | The record carries the given level, text and time. A failed caller lookup records file `???` and line 0. Otherwise the frame's file and line are recorded. |
| `LogMessage.Location` | logger/googlechat.go:160 | The `%s:%d` location is the file, a colon, and a number that parses back to the line. |
| `Fmt.Itoa` | logger/slack.go:105 | `%d` of an int is non-empty and starts with `-` exactly when the value is negative. |
| `Fmt.NatDigits` | logger/slack.go:105 | The digits of a natural number are all decimal digits, with a leading `0` only for zero. |
| `Fmt.ItoaRoundTrip` | logger/slack.go:105 | The `%d` rendering of any int parses back to that int. |
| `GoogleChat.PackColumns` | logger/googlechat.go:104-121 | n columns give ceil(n/2) widgets. Each is a column widget with 1 or 2 items. |
| `GoogleChat.PackColumnsItems` | logger/googlechat.go:71-121 | The packed widgets hold every column in input order. Each column item is the name paragraph followed by the value paragraph. |
| `GoogleChat.PackColumnsGreedyStep` | logger/googlechat.go:105-120 | A new column widget is started exactly when the last widget is not a column widget or already has 2 items. Otherwise the column joins the last widget. Either way the section matches the reference layout. |
| `GoogleChat.CardFor` | logger/googlechat.go:88-133 | The message is one card with id `card1` and one non-collapsible section. Its first widget is a text paragraph holding the message. The rest are ceil(n/2) column widgets of 1 or 2 items, holding the columns in order. |
| `GoogleChat.ToChatMsg` | logger/googlechat.go:88-133 | The greedy packing loop builds exactly `CardFor(msg, columns)`. |
| `GoogleChat.ToChatColumn` | logger/googlechat.go:71-86 | A column item is two text paragraphs: the column name first, then its value. |
| `GoogleChat.RecordColumns` | logger/googlechat.go:155-162 | A sent record shows three columns in this order: `Level` with the record's level, `Env` with the backend's prefix, and `File` with the record's `file:line`. |
| `GoogleChat.GoogleChatBackend.constructor` | logger/googlechat.go:28-40 | The backend starts with an empty pool. |
| `GoogleChat.GoogleChatBackend.InfoDepth` | logger/googlechat.go:42-45 | Appends one `info` record for the caller at depth+1. |
| `GoogleChat.GoogleChatBackend.WarningDepth` | logger/googlechat.go:47-49 | Appends one `warn` record for the caller at depth+1. |
| `GoogleChat.GoogleChatBackend.ErrorDepth` | logger/googlechat.go:51-53 | Appends one `error` record for the caller at depth+1. |
| `GoogleChat.GoogleChatBackend.PushMessage` | logger/googlechat.go:55-68 | Appends exactly one record at the end of the pool and leaves earlier records unchanged. |
| `GoogleChat.GoogleChatBackend.Tick` | logger/googlechat.go:141-162 | An empty pool stays empty and nothing is sent. Otherwise exactly the oldest record is removed. It is sent as the card for its text and columns, unless its text is empty, in which case it is dropped. |
| `Slack.FormatLine` | logger/slack.go:105 | A line starts with the backend's prefix and ends with a newline. |
| `Slack.BatchTextAppend` | logger/slack.go:104-106 | The text of a concatenated batch is the concatenation of the texts of its parts. |
| `Slack.BatchTextAt` | logger/slack.go:104-106 | Record i's line sits after the lines of all earlier records and before the lines of all later ones. |
| `Slack.BatchTextSnoc` | logger/slack.go:104-106 | Formatting one more record appends exactly that record's line. |
| `Slack.BatchText` | logger/slack.go:104-106 | The batch text is empty exactly when the batch is. A non-empty batch's text ends with a newline. |
| `Slack.Payload` | logger/slack.go:108 | The payload is the text with three backticks before and after it. |
| `Slack.FormatBatch` | logger/slack.go:97-106 | The accumulating loop produces the batch text: one line per record, in pool order. |
| `Slack.SlackBackend.constructor` | logger/slack.go:38-50 | The backend starts with an empty pool. |
| `Slack.SlackBackend.InfoDepth` | logger/slack.go:52-55 | Appends one `info` record for the caller at depth+1. |
| `Slack.SlackBackend.WarningDepth` | logger/slack.go:57-59 | Appends one `warn` record for the caller at depth+1. |
| `Slack.SlackBackend.ErrorDepth` | logger/slack.go:61-63 | Appends one `error` record for the caller at depth+1. |
| `Slack.SlackBackend.PushMessage` | logger/slack.go:65-78 | Appends exactly one record at the end of the pool and leaves earlier records unchanged. |
| `Slack.SlackBackend.FlushOnce` | logger/slack.go:86-110 | The pool is empty afterwards. Nothing is sent exactly when the pool was empty. Otherwise the whole pool is drained in one batch and sent as the fenced batch text. |

## Left out

- HTTP sending (`send` in both backends): network I/O. This includes the status ≥ 400 check, the `"ok"` body check, JSON marshalling and the logging of send failures. The tick steps return the payload instead of sending it.
- Goroutines, the stop channel, the one-second delays and the read/write mutex: concurrency and timing. Each loop iteration is one sequential step.
  - Google Chat: the pool is popped under a read lock only, a race that a sequential model cannot show.
  - Slack: the length check and the swap are one step here. The one-second wait between them, during which the program's batch can still grow, is not modelled.
- The runtime caller lookup, `filepath.Base` and the clock: runtime services. The lookup is a `CallStack` parameter whose frames already carry the base file name. `???` has no separator, so taking its base name changes nothing. The time is a parameter holding its RFC 3339 text.
- The registry client: a foreign library. This covers reference and repository parsing, image fetch, digest and tag listing. They are oracles in `Registry` that return a value or an error.
- The cache and the version selector: their code is not part of this model. `util.Cache` is an oracle `CacheGet` (key and computation to a value and error). `util.GetHighestVersionWithFilter` is an oracle over the tag list and pattern. TTL, single-flight behaviour and version ranking are not specified.
- The type assertion `hash.(string)` and `target.(string)`: the cache oracle always returns a string. Every computation handed to it returns one, so the panic on a non-string value is not modelled.
- `logger/logger.go`: forwarding to klog behind a verbosity check, nothing to verify beyond delegation.
- `logger/intf.go`: an interface declaration with no logic.
- `Docker.RemoteRegistryDocker.constructor`: does not take the cache TTL, because the cache built from it is not modelled. The cache's current answers are passed to each call instead.
