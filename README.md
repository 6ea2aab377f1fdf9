# TGDrive bot mode: conversations, folder selection and uploads

This project is a Dafny model of the coordination logic in the bot mode of TG Drive
(`utils/bot_mode.py`), with proofs about it. The bot lets an administrator upload files
to the drive through a Telegram chat. The model covers four pieces:

- **The pending-reply table** (`ACTIVE_CONVERSATIONS`). `wait_for_response` sends a
  question, registers a future for the chat and awaits it until a reply arrives or a timer
  fires. `handle_response` settles that future with the chat's next text message. The model
  is the class `Conversations.Coordinator`. Each future is named by its allocation number,
  so that the caller whose entry was overwritten still waits on its own future.
  `wait_for_response` is split at its `await`: `BeginWait` runs the part before it and
  `EndWait` the part after it. Calling `EndWait` while the future is still pending is the
  timer winning the race.
- **The selection-token store** (`SET_FOLDER_PATH_CACHE`). `/set_folder` asks for a name,
  searches the drive index and stores a token that maps every search result's id to its
  (path, name). It then shows one button per result. Pressing a button decodes the
  button's data, consumes the whole token and writes the choice into `BOT_MODE`. The model
  is the class `FolderSelection.TokenStore`, with `BotSession.Session` as the `BOT_MODE`
  cell.
- **The string rules**: the folder path composition, the callback-data format and its
  parsing, and the cancel and strip checks. Python's string operations
  (`strip`, `split`, `lower`, `str`, `int`) are defined in `PyStr` with Python's meaning.
- **The upload handler** (`file_handler`), as the function `Upload.FileHandler`. It
  checks that a folder is set, derives the file name with the document > video > audio >
  photo > sticker priority and takes the size from the copy. It is given both readings of the
  current folder.

Things the code does that a reader might not expect. The model keeps all of them. Each one
except the first is proved by the member named with it:

- The prompt is sent before the future is registered (line 45 comes before line 52).
  `BeginWait` logs the prompt and then registers the future. The consequence, that a reply
  arriving during the send finds no entry, depends on the suspension at line 45. The model
  has no such suspension, so no member proves it.
- A second question to the same chat replaces the first one's entry, and each caller's
  cleanup deletes whatever entry the chat has by then
  (`OverlappingAsksFirstOrphaned`, `OverlappingAsksSecondDropped`).
- The token is built from every search result, not only the folder-typed ones. The folder
  filter only decides between "not found" and presenting the buttons
  (`TokenStore.SetFolderHandler`).
- A token id is `len(cache) + 1`. Once an earlier token is consumed, the next id can be that
  of a live token, which is then overwritten (`TokenIdCollision`).
- A consumed token's id comes back. Once the only token 1 is consumed, the next
  `/set_folder` takes id 1 again, so an old button names a live token once more
  (`TokenIdReused`). A token is single use only until its id is reused.
- `file_handler` reads the current folder twice. It tests the folder before the copy
  (line 203) and records the folder after the copy has been awaited (line 235). A folder
  choice that completes during the copy files the upload under the new folder
  (`FolderChangedDuringCopy`).
- A folder id containing `_` produces a button that can never be selected
  (`UnderscoreIdIsMalformed`).
- The cancel test runs before `strip`, so `" /cancel"` is searched as a folder name
  (`PaddedCancelIsSearched`).
- `/current_folder` tests the folder name, while an upload tests the folder path
  (`UploadWithoutName`).

Transport calls become values. The prompts and timeout edits go to `Coordinator.outbox`. Each
handler's user-visible reply is its outcome value. The copy to the storage channel and the
acceptance of `new_file` are inputs of `FileHandler`. The drive index's search is a function
parameter of `SetFolderHandler`.

## Model

| member | source | states |
|---|---|---|
| `PyStr.IsSpace` | utils/bot_mode.py:109 | the white-space set of `strip()` contains the ASCII blanks and no digit, sign, `/` or `_` |
| `PyStr.IsIntSpace` | utils/bot_mode.py:154 | the white space `int()` skips is part of the `isspace()` set and still holds the ASCII blanks, but leaves out the information separators U+001C..U+001F |
| `PyStr.Strip` | utils/bot_mode.py:128-129 | `strip(chars)`: the result is empty exactly when every character is stripped; otherwise it neither starts nor ends with a stripped character |
| `PyStr.StripPadded` | utils/bot_mode.py:109 | strip removes exactly the padding: a core with unstripped ends, surrounded by stripped characters, strips to the core |
| `PyStr.StripIdempotent` | utils/bot_mode.py:128 | stripping twice gives the same as stripping once |
| `PyStr.Split` | utils/bot_mode.py:152 | `split(sep)` returns at least one piece, and no piece contains the separator |
| `PyStr.JoinSplit` | utils/bot_mode.py:152 | joining the pieces of `split(sep)` with `sep` gives back the string |
| `PyStr.SplitAfterPiece` | utils/bot_mode.py:152 | splitting `a + sep + b`, where `a` has no separator, gives `a` followed by the pieces of `b` |
| `PyStr.Lower` | utils/bot_mode.py:105 | `lower()` keeps the length and lowers each ASCII letter |
| `PyStr.ParseInt` | utils/bot_mode.py:154 | `int(s)` succeeds only on a string that ends in a digit once the white space `int()` skips is stripped; a negative result needs a leading `-` |
| `PyStr.NatToString` | utils/bot_mode.py:135 | `str(n)` is a non-empty string of decimal digits with no leading zero |
| `PyStr.ParseIntOfNatToString` | utils/bot_mode.py:154 | `int(str(n)) == n` |
| `PyStr.InfoSeparatorIsNotIntSpace` | utils/bot_mode.py:154 | U+001C counts as white space for `isspace()`, yet `int()` of it followed by `1` fails |
| `PyStr.NatToStringInjective` | utils/bot_mode.py:135 | distinct token ids and message ids print differently |
| `FolderPath.ComposePath` | utils/bot_mode.py:128-129 | the composed path starts with `/`, never with `//`, and has no trailing `/` unless it is `/` |
| `FolderPath.RootParent` | utils/bot_mode.py:128-129 | with a parent that is empty or all slashes, the path is `"/" + id` (for an id with no slash at either end) |
| `FolderPath.NestedParent` | utils/bot_mode.py:128-129 | otherwise the path is `"/" + parent.strip("/") + "/" + id` (for a non-empty id with no slash at either end) |
| `FolderPath.EmptyId` | utils/bot_mode.py:128-129 | an empty id gives `"/" + parent.strip("/")`, with no trailing slash |
| `FolderPath.ParentNormalised` | utils/bot_mode.py:128 | slashes around the parent path do not change the composed path |
| `FolderPath.TopLevelFolder` | utils/bot_mode.py:128-129 | folder `f1` with parent `/` is stored under `/f1` |
| `CallbackData.Encode` | utils/bot_mode.py:135 | every button's data starts with `set_folder_`, the prefix the callback filter at line 147 matches |
| `CallbackData.Parse` | utils/bot_mode.py:152 | unpacking `split("_")[2:]` into two names gives two underscore-free pieces |
| `CallbackData.SplitEncoded` | utils/bot_mode.py:135 | `set_folder_<token>_<id>` splits into `set`, `folder`, the token digits and the pieces of the id |
| `CallbackData.Decode` | utils/bot_mode.py:152-154 | data decodes only when it has exactly four `_`-separated pieces, and the folder id it yields has no `_` |
| `CallbackData.DecodeEncode` | utils/bot_mode.py:152-154 | decoding a button's data (built at line 135) gives back (token, id) exactly when the id has no `_`; otherwise decoding fails |
| `CallbackData.EncodeInjective` | utils/bot_mode.py:135 | two buttons carry equal data only for equal (token, id), whatever the id |
| `Conversations.Coordinator.constructor` | utils/bot_mode.py:26 | the table starts empty |
| `Conversations.Coordinator.BeginWait` | utils/bot_mode.py:44-52 | the prompt is logged first; then a fresh future is registered for the chat, replacing any entry it had |
| `Conversations.Coordinator.Awaiting` | utils/bot_mode.py:72-74 | a chat's message is routed only if the chat has an entry; in a well-formed table, exactly when its registered future is not done |
| `Conversations.Coordinator.HandleResponse` | utils/bot_mode.py:71-77 | returns true exactly when the chat's registered future is pending, and then settles it with the message; otherwise nothing changes; afterwards the chat is not awaiting |
| `Conversations.Coordinator.EndWait` | utils/bot_mode.py:54-64 | a settled future returns its reply; a pending one is cancelled, the prompt edit is logged and TimedOut returned; on both exits the chat's entry is deleted and no other entry changes |
| `Conversations.AskAnswered` | utils/bot_mode.py:40-77 | a question answered before the timeout returns that answer and leaves no entry for the chat |
| `Conversations.AskUnanswered` | utils/bot_mode.py:54-64 | an unanswered question times out, logs prompt then timeout edit, and leaves no entry |
| `Conversations.DeliverTwice` | utils/bot_mode.py:71-77 | a second delivery of the same message returns false and changes nothing |
| `Conversations.OverlappingAsksFirstOrphaned` | utils/bot_mode.py:52 | with two questions to one chat, the reply settles only the second; the first caller times out |
| `Conversations.OverlappingAsksSecondDropped` | utils/bot_mode.py:52-64 | the first caller's timeout cleanup deletes the second caller's entry; the reply is not routed and both time out |
| `BotSession.Session.constructor` | utils/bot_mode.py:264-267 | the session holds the folder path and name it is started with |
| `BotSession.Session.SetFolder` | utils/bot_mode.py:162 | `set_folder` stores the path and the name |
| `BotSession.CurrentFolderReport` | utils/bot_mode.py:180-187 | `/current_folder` reports no folder exactly when the folder name is empty, and otherwise the path and name |
| `FolderSelection.IsFolder` | utils/bot_mode.py:115 | a result is kept as a folder only when its type is `folder`, and a `file` result never is |
| `FolderSelection.IsCancel` | utils/bot_mode.py:105 | a reply cancels only if it is exactly seven characters starting with `/`, so no padded reply cancels |
| `FolderSelection.Query` | utils/bot_mode.py:109 | the searched name is empty exactly when the reply is all white space; otherwise it neither starts nor ends with white space |
| `FolderSelection.Entry` | utils/bot_mode.py:128-130 | a candidate keeps the result's name, and its path is absolute with no doubled leading or trailing `/` |
| `FolderSelection.TokenEntries` | utils/bot_mode.py:124-130 | every search result's id is a key of the token |
| `FolderSelection.TokenEntriesAt` | utils/bot_mode.py:127-130 | a result whose id no later result repeats maps to its own composed path and name |
| `FolderSelection.TokenEntriesFrom` | utils/bot_mode.py:127-130 | every key of the token maps to the entry of some search result with that id |
| `FolderSelection.ButtonFor` | utils/bot_mode.py:133-136 | a result's button is captioned with its name, and its data decodes back to (token, id) when the id has no `_` and fails to decode when it has one |
| `FolderSelection.Buttons` | utils/bot_mode.py:131-138 | one button per search result, in order, each labelled with its name and carrying `set_folder_<token>_<id>` |
| `FolderSelection.CollectFolders` | utils/bot_mode.py:113-118 | the loop keeps exactly the folder-typed results by id (every folder's id is a key, every key is a folder's id, and each value is a folder with that id); it is empty exactly when no result is a folder |
| `FolderSelection.BuildSelection` | utils/bot_mode.py:123-138 | the loop over every search result builds exactly the token entries and the buttons |
| `FolderSelection.Resolve` | utils/bot_mode.py:152-161 | a button press selects only a candidate held by a live token |
| `FolderSelection.SelectionIsSingleUse` | utils/bot_mode.py:152-161 | after a selection consumes its token, every data that decodes to that token finds it expired |
| `FolderSelection.PresentedButtonSelects` | utils/bot_mode.py:152-162 | pressing a presented button selects that result's composed path and name (underscore-free id, not repeated later) |
| `FolderSelection.UnderscoreIdIsMalformed` | utils/bot_mode.py:152 | a button for an id containing `_` always fails to decode |
| `FolderSelection.SelectedIsSearchResult` | utils/bot_mode.py:160-162 | a selected folder is the entry of one of the search results its token was built from |
| `FolderSelection.TokenStore.constructor` | utils/bot_mode.py:23 | the token store starts empty |
| `FolderSelection.TokenStore.SetFolderHandler` | utils/bot_mode.py:92-144 | a timeout, a cancel reply or a search with no folder leaves the store unchanged; otherwise the store gets token `len + 1` built from every result (other keys kept, an equal key replaced) and one button per result is shown |
| `FolderSelection.TokenStore.SetFolderCallback` | utils/bot_mode.py:149-170 | malformed data, an unknown token or an unknown candidate change nothing; a selection deletes just that token and sets the session to the candidate |
| `FolderSelection.PaddedCancelIsSearched` | utils/bot_mode.py:105-109 | `" /cancel"` is no cancel, and it is searched as `/cancel` |
| `FolderSelection.CancelIgnoresCase` | utils/bot_mode.py:105 | the cancel test gives the same answer for a text and its lowercase form |
| `FolderSelection.DocsIsSearched` | utils/bot_mode.py:105-110 | the reply `Docs` is no cancel and is searched unchanged |
| `FolderSelection.SelectDocs` | utils/bot_mode.py:92-162 | reply `Docs`, one folder `f1` under `/`, button pressed: the session becomes (`/f1`, `Docs`) and the token is gone |
| `FolderSelection.TokenIdCollision` | utils/bot_mode.py:125-130 | with tokens 1 and 2 live, consuming token 1 (line 160) makes the next `/set_folder` present token 2, and the store then holds only token 2, built from the new search |
| `FolderSelection.TokenIdReused` | utils/bot_mode.py:125-161 | with token 1 alone consumed, the next `/set_folder` takes id 1 again, and the old button data selects the new search's result |
| `Upload.KindOf` | utils/bot_mode.py:222-231 | the kind chosen is present, and no kind earlier in the order document, video, audio, photo, sticker is; there is none exactly when every kind is absent |
| `Upload.PrimaryMedia` | utils/bot_mode.py:213-219 | the `or` chain yields the copy's media object of its first-priority kind, and nothing when the copy has no media |
| `Upload.FileName` | utils/bot_mode.py:222-231 | a name is derived exactly when the message has one of the five media kinds |
| `Upload.RecordedSize` | utils/bot_mode.py:213-238 | the size is the `file_size` of the copy's first-priority media object, or 0 when the copy has no media or that object has no size |
| `Upload.VideoSizeRecorded` | utils/bot_mode.py:213-238 | a copy with a video of 99 bytes and a photo records 99, the video's size |
| `Upload.OrElse` | utils/bot_mode.py:225-227 | `name or fallback` keeps a non-empty name and otherwise gives the fallback, so the result is empty only if the fallback is |
| `Upload.FileHandler` | utils/bot_mode.py:203-252 | with no folder set, nothing is copied or recorded; a record is made exactly when the copy succeeds, a kind is present and the index accepts; the record is the folder read after the copy, the derived file name, the copy's id and the copy's size; a failure says whether a copy was left |
| `Upload.FolderChangedDuringCopy` | utils/bot_mode.py:203-235 | the folder tested at line 203 and the folder recorded at line 235 are separate reads, and the record takes the later one |
| `Upload.FileNameRule` | utils/bot_mode.py:222-231 | the kind chosen by priority decides the name: a made-up name is `<kind>_<id>.<ext>`, and otherwise the kind's declared name is used as it is |
| `Upload.Synthesized` | utils/bot_mode.py:225-231 | a made-up name starts with `<kind>_` and is at least three characters longer than the kind and the extension together (an id digit, `_` and `.`) |
| `Upload.SynthesizedInjective` | utils/bot_mode.py:225-231 | a made-up name `prefix_<id>.ext` determines the id |
| `Upload.SynthesizedNamesUnique` | utils/bot_mode.py:225-231 | two messages with made-up names share a name only when they have the same kind and id |
| `Upload.DocumentNameHasNoFallback` | utils/bot_mode.py:222-223 | a document's declared name is used as it is, even when absent |
| `Upload.ReportUpload` | utils/bot_mode.py:234-239 | a document `report.pdf` of 2048 bytes with folder `/f1` is recorded as (`/f1`, `report.pdf`, copy id, 2048) |
| `Upload.UploadWithoutName` | utils/bot_mode.py:203 | with a path but no name, `/current_folder` (line 180) reports no folder while an upload still goes ahead |

## Left out

- Telegram transport (`send_message`, `edit_text`, `reply_text`, `answer`, `message.delete`, `message.copy`): prompts and timeout edits are logged in `Coordinator.outbox`; replies are outcome values; the copy is an input.
- The asyncio event loop, futures and `wait_for`: only the interleavings at the `await` are modelled. The 60-second timeout value and real time are not.
- The `await` on `send_message` (line 45) is a suspension point of its own. A reply that arrives there finds no entry. This is modelled as `HandleResponse` running before `BeginWait`, and no member states it separately.
- Message filters, the admin check, `/start`, `START_CMD`, `start_bot_mode`, the `main_bot` client and the cache directory: framework wiring and bootstrap.
- The `set_folder_` regex filter on callbacks: the model accepts any callback data.
- `get_size_format` and the reply texts: float division and formatting.
- The drive index: `search_file_folder` is a function parameter, and `new_file`'s success is a boolean. Its matching and persistence are foreign code.
- The logging in the `except` branch (lines 247-252): an exception is the outcome `Failed`.
- PyStr.Lower: lowers only ASCII letters. For the comparison with `/cancel` this is exact: of the non-ASCII characters, only U+0130 and U+212A lowercase to ASCII letters (`i` and `k`), and neither letter occurs in `/cancel`.
- PyStr.ParseInt: accepts only ASCII digits, not Python's other Unicode decimal digits. It also rejects underscores between digits, which cannot reach it, because the data was split on `_`.
- Upload.RecordedSize: `hasattr(file, 'file_size')` is modelled as the size being present or absent. A Pyrogram attribute that is present but holds None is not distinguished.
- Conversations.Coordinator.EndWait: the corner case where the timer fires at the moment the future is settled is resolved in favour of the reply.
- `BOT_MODE`'s own class is not part of this model. `set_folder` is taken to store both fields, and an empty string stands for Python's falsy `None`.
