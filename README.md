# Conversation context management of the GENIUS chatbot, in Dafny

This project models the part of `main.py` that decides what conversation
history the language model sees on each turn. It has four parts:

- **History table.** The SQLite table `history (id INTEGER PRIMARY KEY, role
  TEXT, message TEXT)` is append-only. No row is deleted, so id order is
  insertion order. It is modelled as a `seq<Turn>`.
- **Recent-messages query and its memo cache.** `get_recent_messages` runs
  `ORDER BY id DESC LIMIT 100` and is memoised with `lru_cache`. The key is
  always the same cursor, so the cache is one slot: `Option<seq<Turn>>`.
  `add_message` inserts a row and then clears that cache.
  `History.ConversationStore` is a class holding both. Its invariant is that
  the cache, when filled, equals a fresh query.
- **Window policy.** `ChatbotConfig` holds `default_context_length` and
  `current_context_length`. It sets the current length from the whitespace
  word count of the input (`len(user_input.split())`). `Words` models
  Python's `str.split()` with Python's whitespace set. `Policy` holds the
  class and the pure state functions its methods are proved against.
- **Context slice and rendering.** The slice `recent[-n:]` is modelled with
  Python's slice semantics for every integer `n`. `format_context` renders
  `role: message` lines and joins them with `"\n"`.

`Loop` shows how the conversation loop sequences these per turn:
adjust → add the user turn → fetch and slice → format → ask the model → add
the reply. The model samples its reply, so the same context can get
different replies; each turn's reply is therefore an input (`replies[k]` for
the k-th input line). The loop is modelled over a finite list of input
lines.

## Behaviour as written

The model follows the code, also where the comments in `main.py`
(lines 155-168) suggest otherwise:

- The query result is newest first, and nothing reverses it. So
  `recent[-n:]` keeps the *oldest* `n` of the (up to) 100 turns returned, in
  newest-first order (`Context.WindowOfRecent`).
- Once more than `n` turns are stored, the context therefore leaves out the
  turn just recorded (`Context.WindowSkipsNewest`,
  `Loop.ContextLeavesOutInput`). Only while the table holds at most `n`
  turns does the context begin with the current input
  (`Loop.ContextStartsWithInput`).
- The thresholds are strict. 10 words give the default, 11 to 20 words give
  7, and 21 or more give 10. The comment's "10-20 words" and "less than 10"
  do not match this exactly (`Policy.WindowBoundaries`).
- `[-0:]` is the whole list, and a negative length drops that many turns
  from the front (`Context.Window`). The loop only uses 10, 7 and the
  default 5.

## Model

| member | source | states |
|---|---|---|
| `Words.IsSpace` | main.py:78 | space, tab, newline, carriage return, vertical tab and form feed are whitespace; digits, ASCII letters and `!`..`/` are not; nothing above U+3000 is |
| `Words.Words` | main.py:78 | every word `str.split()` returns is non-empty and contains no whitespace |
| `Words.WordCountIsScan` | main.py:78 | the split-based word count equals an independent left-to-right count of word starts |
| `Words.WordsKeepText` | main.py:78 | the words, run together, are exactly the non-whitespace characters of the input, in order |
| `Words.WordCount` | main.py:78 | the count is zero if and only if the input is empty or all whitespace; a text of length L has at most (L+1)/2 words |
| `Policy.WindowFor` | main.py:79-84 | the chosen window is always 10, 7 or the default |
| `Policy.AdjustedWindow` | main.py:78-84 | more than 20 words give 10; 11..20 give 7; at most 10 words, including empty or all-whitespace input, give the default |
| `Policy.AdjustIdempotent` | main.py:75-84 | adjusting twice with the same input gives the same state as adjusting once |
| `Policy.OverrideIsTransient` | main.py:71-84 | a manual `set_context_length` is overwritten by the next adjustment, which ignores the current length |
| `Policy.DefaultPreserved` | main.py:67-84 | neither `set_context_length` nor the adjustment changes the default length |
| `Policy.WindowMonotone` | main.py:79-84 | with a default of at most 7, more words never give a smaller window |
| `Policy.WindowBoundaries` | main.py:79-84 | 10 words give the default; 11 and 20 give 7; 21 give 10 |
| `Policy.ChatbotConfig.constructor` | main.py:67-69 | the current length starts equal to the default, which is 5 when none is given |
| `Policy.ChatbotConfig.SetContextLength` | main.py:71-73 | sets the current length and changes nothing else |
| `Policy.ChatbotConfig.AdjustContextBasedOnComplexity` | main.py:75-84 | the new state is the adjusted state for the input; the current length is 10, 7 or the default; the default is unchanged |
| `History.Recent` | main.py:47-50 | the query returns exactly min(100, number of rows) turns, the most recent ones, newest first |
| `History.RecentIsReversedTail` | main.py:49 | the query result is the last min(100, n) rows in reverse insertion order |
| `History.RecentAfterAppend` | main.py:49-57 | after one insert, the query result is the new turn followed by the previous result, less its oldest turn once 100 are returned |
| `History.ConversationStore.constructor` | main.py:35-42 | the table opens with the rows it already holds, and the cache starts empty |
| `History.ConversationStore.AddMessage` | main.py:53-57 | appends exactly one turn (role, message) at the end, keeps all earlier turns and clears the cache, so the cache invariant holds |
| `History.ConversationStore.GetRecentMessages` | main.py:46-50 | returns what a fresh query over the current rows returns, fills the cache and queries the table only on a miss |
| `History.ReadTwice` | main.py:46-50 | two reads with no insert between them return identical results |
| `History.ReadAfterWrite` | main.py:46-57 | a read after `add_message` sees the updated table, with the new turn first |
| `Context.SliceStart` | main.py:117 | Python's start index of a slice: a start in 0..len is itself; a start in -len..-1 counts from the end; below -len it is 0; above len it is len |
| `Context.Window` | main.py:117 | for n > 0, `xs[-n:]` is the suffix of length min(n, len); `[-0:]` is the whole list; a negative n drops -n items from the front |
| `Context.WindowOfRecent` | main.py:117 | on the newest-first query result, the window is the oldest min(n, returned) of the returned turns, newest first |
| `Context.WindowSkipsNewest` | main.py:117 | when more turns are returned than the window holds, the window ends strictly before the newest turn |
| `Context.WindowKeepsAll` | main.py:117 | when the window is at least as long as the query result, it is the whole result |
| `Context.Render` | main.py:62 | a line is the role, then ": ", then the message |
| `Context.RenderAll` | main.py:62 | one rendered line per turn, in input order |
| `Context.FormatContext` | main.py:60-62 | no turns give ""; one turn gives its own line |
| `Context.JoinLines` | main.py:62 | no lines join to ""; one line joins to itself; with more lines, the text is the first line, then a newline, then more |
| `Context.JoinLinesStartsWithFirst` | main.py:62 | the joined text starts with its first line |
| `Context.SplitJoinLines` | main.py:62 | splitting the joined text at newlines gives back the lines, when none contains a newline |
| `Context.FormatContextLines` | main.py:60-62 | the k-th line of the context comes from the k-th turn, when no role or message contains a newline |
| `Context.FormatContextAppend` | main.py:60-62 | one more turn at the end adds one newline-separated line at the end |
| `Loop.ContextFor` | main.py:117-120 | an empty table gives the empty context; a window at least as long as the query result shows the whole result |
| `Loop.UserTurn` | main.py:109-126 | one turn: the config is adjusted to the input; the context is built from the rows including the user turn; the user turn and then the model's reply are recorded |
| `Loop.TurnContext` | main.py:111-120 | the context for an input under the default config; on an empty table it is the input's own `User: ` line |
| `Loop.Step` | main.py:109-126 | one turn adds exactly one context, built from the rows before the turn, and appends the user row and then the reply row |
| `Loop.Run` | main.py:101-126 | a run over k inputs builds k contexts, adds 2k rows and leaves the stored rows unchanged |
| `Loop.RunExtend` | main.py:101-126 | a run over one more input line is the previous run followed by one more turn |
| `Loop.RunRecordsTurns` | main.py:101-126 | after the stored rows, a run records each input followed by that turn's reply, in order |
| `Loop.RunContextAt` | main.py:101-126 | the i-th context is built from the rows recorded before the i-th input |
| `Loop.Converse` | main.py:95-130 | the loop's final table and contexts are exactly those of the per-turn specification, and the cache invariant holds throughout |
| `Loop.FirstTurnContext` | main.py:99-120 | on an empty table with the default config, the first context is exactly `User: <input>` |
| `Loop.ContextStartsWithInput` | main.py:111-120 | while the table holds no more turns than the window, the context's first line is the input just recorded |
| `Loop.ContextLeavesOutInput` | main.py:111-120 | once more turns are returned than the window holds, the context is older turns only, newest first, without the input just recorded |

## Left out

- The SQLite connection, cursor, `CREATE TABLE`/`CREATE INDEX`, `commit` and `close` (main.py:35-42, 133-134) are I/O. The table is an in-memory sequence, and the secondary index has no observable effect.
- Storage failures raised by `execute` or `commit` are not modelled. The loop's blanket `except Exception` handler, which prints and leaves the loop, is left out with them (main.py:128-130).
- `lru_cache`'s capacity of 200 and its eviction are left out. The code only ever uses one key (the cursor), so one slot is the whole observable behaviour.
- The Ollama model, prompt template and `chain.invoke` (main.py:3-31, 123) are a network call whose output is sampled, so it is not a function of the context. Each turn's reply is an input (`replies`). The model does not relate a reply to the context it was given.
- Console input and output and the `"quit"` check (`user_input.lower() == "quit"`, main.py:102-107) are interactive I/O. `Loop.Converse` runs over the lines typed before the quitting one.
- Python strings may hold lone surrogate code points. Dafny `char` values are Unicode scalar values, so such strings are outside the model.
- The workflow comments (main.py:140-189) are prose, not behaviour.
