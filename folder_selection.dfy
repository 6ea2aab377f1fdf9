/**
 * The folder-selection handshake. `/set_folder` asks for a folder name,
 * searches the drive index for it and, when at least one folder matches,
 * stores a selection token (SET_FOLDER_PATH_CACHE) mapping each search result's
 * id to its (path, name) and shows one button per result. Pressing a button
 * consumes the token and writes the chosen folder into the session.
 */
module FolderSelection {
  import opened Wrappers
  import opened PyStr
  import opened FolderPath
  import opened CallbackData
  import opened BotSession
  import opened Conversations

  /** One search result of the drive index. */
  datatype Item = Item(id: string, name: string, path: string, kind: string)

  /** A search result is a folder when its type is `folder`; a file never is. */
  predicate IsFolder(item: Item): (b: bool)
    ensures b ==> item.kind == "folder"
    ensures item.kind == "file" ==> !b
  {
    item.kind == "folder"
  }

  predicate HasFolder(items: seq<Item>) {
    exists i | 0 <= i < |items| :: IsFolder(items[i])
  }

  /** The (path, name) pair a token holds for one candidate. */
  datatype Candidate = Candidate(path: string, name: string)

  datatype Button = Button(caption: string, data: string)

  /** The outcomes of `/set_folder`, one per way the handler returns. */
  datatype HandlerOutcome =
    | AskTimedOut
    | UserCancelled
    | NotFound(query: string)
    | Presented(token: nat, buttons: seq<Button>)

  /** The outcomes of a button press. */
  datatype CallbackOutcome =
    | Malformed          // the split/unpack or `int` conversion raises
    | Expired            // no such token
    | MissingCandidate   // `.get(folder_id)` is None and unpacking it raises
    | Selected(token: int, choice: Candidate)

  /** The reply text that cancels the handshake, compared after `lower()` and before `strip()`. */
  predicate IsCancel(text: string): (b: bool)
    ensures b ==> |text| == 7 && text[0] == '/'
  {
    Lower(text) == "/cancel"
  }

  /** The folder name searched for: the reply with white space stripped. */
  function Query(text: string): (q: string)
    ensures q == [] <==> forall i | 0 <= i < |text| :: IsSpace(text[i])
    ensures q == [] || (!IsSpace(q[0]) && !IsSpace(q[|q| - 1]))
  {
    Strip(text, IsSpace)
  }

  /** The candidate a result offers: its folder path under its parent, and its name. */
  function Entry(item: Item): (c: Candidate)
    ensures c.name == item.name
    ensures |c.path| >= 1 && c.path[0] == '/' && (c.path == "/" || (c.path[1] != '/' && c.path[|c.path| - 1] != '/'))
  {
    Candidate(ComposePath(item.path, item.id), item.name)
  }

  /**
   * The token built from the search results: one key per result id; when
   * ids repeat, the later result's entry replaces the earlier one, as in a
   * dict filled in order.
   */
  function TokenEntries(items: seq<Item>): (m: map<string, Candidate>)
    ensures forall i | 0 <= i < |items| :: items[i].id in m
    decreases |items|
  {
    if items == [] then map[]
    else
      var init := items[..|items| - 1];
      var last := items[|items| - 1];
      TokenEntries(init)[last.id := Entry(last)]
  }

  /**
   * The button of one search result: captioned with its name, its data
   * decoding back to (token, id) exactly when the id has no underscore.
   */
  function ButtonFor(token: nat, item: Item): (b: Button)
    ensures b.caption == item.name
    ensures '_' !in item.id ==> Decode(b.data) == Some((token, item.id))
    ensures '_' in item.id ==> Decode(b.data) == None
  {
    DecodeEncode(token, item.id);
    Button(item.name, Encode(token, item.id))
  }

  /** One button per search result, in the order of the results. */
  function Buttons(token: nat, items: seq<Item>): (bs: seq<Button>)
    ensures |bs| == |items| && forall i | 0 <= i < |items| :: bs[i] == ButtonFor(token, items[i])
  {
    seq(|items|, i requires 0 <= i < |items| => ButtonFor(token, items[i]))
  }

  /** A result that no later result shares its id with keeps its own entry. */
  lemma {:induction false} TokenEntriesAt(items: seq<Item>, i: nat)
    requires i < |items|
    requires forall j | i < j < |items| :: items[j].id != items[i].id
    ensures TokenEntries(items)[items[i].id] == Entry(items[i])
    decreases |items|
  {
    if i < |items| - 1 {
      var init := items[..|items| - 1];
      assert init[i] == items[i];
      TokenEntriesAt(init, i);
    }
  }

  /** Every entry of a token is the entry of a search result with that id. */
  lemma {:induction false} TokenEntriesFrom(items: seq<Item>, key: string)
    requires key in TokenEntries(items)
    ensures exists i | 0 <= i < |items| :: items[i].id == key && TokenEntries(items)[key] == Entry(items[i])
    decreases |items|
  {
    var init := items[..|items| - 1];
    var last := items[|items| - 1];
    if key != last.id {
      TokenEntriesFrom(init, key);
      var i :| 0 <= i < |init| && init[i].id == key && TokenEntries(init)[key] == Entry(init[i]);
      assert items[i] == init[i];
    } else {
      assert items[|items| - 1] == last;
    }
  }

  /** The loop at the start of `/set_folder`'s search step: the folder-typed results by id. */
  method CollectFolders(items: seq<Item>) returns (folders: map<string, Item>)
    ensures folders.Keys == set i | 0 <= i < |items| && IsFolder(items[i]) :: items[i].id
    ensures forall i | 0 <= i < |items| && IsFolder(items[i]) :: items[i].id in folders
    ensures forall id | id in folders :: exists i | 0 <= i < |items| :: IsFolder(items[i]) && items[i].id == id
    ensures forall id | id in folders :: IsFolder(folders[id]) && folders[id].id == id
    ensures |folders| == 0 <==> !HasFolder(items)
  {
    folders := map[];
    var i := 0;
    while i < |items|
      invariant 0 <= i <= |items|
      invariant forall j | 0 <= j < i && IsFolder(items[j]) :: items[j].id in folders
      invariant forall id | id in folders :: exists j | 0 <= j < i :: IsFolder(items[j]) && items[j].id == id
      invariant forall id | id in folders :: IsFolder(folders[id]) && folders[id].id == id
    {
      if IsFolder(items[i]) {
        folders := folders[items[i].id := items[i]];
      }
      i := i + 1;
    }
    if HasFolder(items) {
      var j :| 0 <= j < |items| && IsFolder(items[j]);
      assert items[j].id in folders;
    }
  }

  /** One more search result adds its entry and its button. */
  lemma SelectionStep(token: nat, items: seq<Item>, i: nat)
    requires i < |items|
    ensures TokenEntries(items[..i + 1]) == TokenEntries(items[..i])[items[i].id := Entry(items[i])]
    ensures Buttons(token, items[..i + 1]) == Buttons(token, items[..i]) + [ButtonFor(token, items[i])]
  {
    assert items[..i + 1][..i] == items[..i];
  }

  /** The loop that builds the token and the buttons from every search result. */
  method BuildSelection(token: nat, items: seq<Item>) returns (entries: map<string, Candidate>, buttons: seq<Button>)
    ensures entries == TokenEntries(items)
    ensures buttons == Buttons(token, items)
  {
    entries, buttons := map[], [];
    var i := 0;
    while i < |items|
      invariant 0 <= i <= |items|
      invariant entries == TokenEntries(items[..i])
      invariant buttons == Buttons(token, items[..i])
    {
      var item := items[i];
      entries := entries[item.id := Entry(item)];
      buttons := buttons + [ButtonFor(token, item)];
      SelectionStep(token, items, i);
      i := i + 1;
    }
    assert items[..|items|] == items;
  }

  /** What a button press yields against the tokens `cache`. */
  function Resolve(cache: map<int, map<string, Candidate>>, data: string): (r: CallbackOutcome)
    ensures r.Selected? ==> r.token in cache && r.choice in cache[r.token].Values
  {
    match Decode(data)
    case None => Malformed
    case Some((token, folderId)) =>
      if token !in cache then Expired
      else if folderId !in cache[token] then MissingCandidate
      else Selected(token, cache[token][folderId])
  }

  /**
   * Consuming a token expires every button of it: any data that decodes to
   * the consumed token now finds no token. (A later token can take the same
   * id again; see TokenIdReused.)
   */
  lemma SelectionIsSingleUse(cache: map<int, map<string, Candidate>>, data: string)
    requires Resolve(cache, data).Selected?
    ensures forall other | Decode(other).Some? && Decode(other).value.0 == Resolve(cache, data).token ::
              Resolve(cache - {Resolve(cache, data).token}, other) == Expired
  {
  }

  /**
   * Pressing the button shown for a result selects that result's path and
   * name, provided no later result has the same id and the id has no `_`.
   */
  lemma PresentedButtonSelects(cache: map<int, map<string, Candidate>>, token: nat, items: seq<Item>, i: nat)
    requires token in cache && cache[token] == TokenEntries(items)
    requires i < |items| && '_' !in items[i].id
    requires forall j | i < j < |items| :: items[j].id != items[i].id
    ensures Resolve(cache, ButtonFor(token, items[i]).data) == Selected(token, Entry(items[i]))
  {
    DecodeEncode(token, items[i].id);
    TokenEntriesAt(items, i);
  }

  /** The button of a result whose id contains `_` can never select anything. */
  lemma UnderscoreIdIsMalformed(cache: map<int, map<string, Candidate>>, token: nat, item: Item)
    requires '_' in item.id
    ensures Resolve(cache, ButtonFor(token, item).data) == Malformed
  {
    DecodeEncode(token, item.id);
  }

  /** A selection from a token built by `/set_folder` is one of the search results' entries. */
  lemma SelectedIsSearchResult(cache: map<int, map<string, Candidate>>, data: string, items: seq<Item>)
    requires Resolve(cache, data).Selected?
    requires cache[Resolve(cache, data).token] == TokenEntries(items)
    ensures exists i | 0 <= i < |items| :: Resolve(cache, data).choice == Entry(items[i])
  {
    var (token, folderId) := Decode(data).value;
    TokenEntriesFrom(items, folderId);
  }

  class TokenStore {
    /** SET_FOLDER_PATH_CACHE: token id to the candidates offered under it. */
    var cache: map<int, map<string, Candidate>>

    constructor ()
      ensures cache == map[]
    {
      cache := map[];
    }

    /**
     * `/set_folder` after its question: `response` is what the question
     * returned and `search` the drive index's search. The flow ends without a
     * change on a timeout, on a cancel reply and when no result is a folder;
     * otherwise it stores a token built from every result under id
     * `len(cache) + 1` (replacing a token with that id) and shows one button per result.
     */
    method SetFolderHandler(response: Exit, search: string -> seq<Item>) returns (out: HandlerOutcome)
      modifies this
      ensures response.TimedOut? ==> out == AskTimedOut && cache == old(cache)
      ensures response.Settled? && IsCancel(response.msg.text) ==> out == UserCancelled && cache == old(cache)
      ensures response.Settled? && !IsCancel(response.msg.text) ==>
                var query := Query(response.msg.text);
                var items := search(query);
                var token := |old(cache)| + 1;
                if HasFolder(items) then
                  out == Presented(token, Buttons(token, items))
                  && cache == old(cache)[token := TokenEntries(items)]
                else
                  out == NotFound(query) && cache == old(cache)
    {
      if response.TimedOut? {
        return AskTimedOut;
      }
      var text := response.msg.text;
      if IsCancel(text) {
        return UserCancelled;
      }
      var query := Query(text);
      var items := search(query);
      var folders := CollectFolders(items);
      if |folders| == 0 {
        return NotFound(query);
      }
      var token := |cache| + 1;
      var entries, buttons := BuildSelection(token, items);
      cache := cache[token := entries];
      out := Presented(token, buttons);
    }

    /**
     * A button press: the token is looked up, the candidate is looked up, then
     * the whole token is deleted and the session set. On an unknown token or
     * candidate, or malformed data, nothing changes.
     */
    method SetFolderCallback(data: string, session: Session) returns (out: CallbackOutcome)
      modifies this, session
      ensures out == Resolve(old(cache), data)
      ensures out.Selected? ==>
                cache == old(cache) - {out.token}
                && session.currentFolder == out.choice.path
                && session.currentFolderName == out.choice.name
      ensures !out.Selected? ==>
                cache == old(cache)
                && session.currentFolder == old(session.currentFolder)
                && session.currentFolderName == old(session.currentFolderName)
    {
      var decoded := Decode(data);
      if decoded.None? {
        return Malformed;
      }
      var (token, folderId) := decoded.value;
      if token !in cache {
        return Expired;
      }
      var candidates := cache[token];
      if folderId !in candidates {
        return MissingCandidate;
      }
      var choice := candidates[folderId];
      cache := cache - {token};
      session.SetFolder(choice.path, choice.name);
      out := Selected(token, choice);
    }
  }

  /** A reply " /cancel" is not a cancel (the test comes before `strip`): it is searched as "/cancel". */
  lemma PaddedCancelIsSearched()
    ensures !IsCancel(" /cancel") && Query(" /cancel") == "/cancel"
  {
    assert Lower(" /cancel")[0] == ' ';
    assert " /cancel" == " " + "/cancel" + [];
    StripPadded(" ", "/cancel", [], IsSpace);
  }

  /** The cancel test ignores letter case. */
  lemma CancelIgnoresCase(text: string)
    ensures IsCancel(text) <==> IsCancel(Lower(text))
  {
    LowerIdempotent(text);
  }

  /** The reply "Docs" is no cancel and is searched as it is. */
  lemma DocsIsSearched()
    ensures !IsCancel("Docs") && Query("Docs") == "Docs"
  {
    assert Lower("Docs")[0] == 'd';
    assert "Docs" == [] + "Docs" + [];
    StripPadded([], "Docs", [], IsSpace);
  }

  /**
   * The whole handshake: "Docs" answered, the index finding folder f1 named
   * Docs under "/", and its button pressed, set the session to ("/f1", "Docs")
   * and consume the token.
   */
  method SelectDocs(store: TokenStore, session: Session, reply: Message, search: string -> seq<Item>)
    returns (shown: HandlerOutcome, picked: CallbackOutcome)
    requires reply.text == "Docs" && store.cache == map[]
    requires search("Docs") == [Item("f1", "Docs", "/", "folder")]
    modifies store, session
    ensures shown == Presented(1, [Button("Docs", Encode(1, "f1"))])
    ensures picked == Selected(1, Candidate("/f1", "Docs"))
    ensures session.currentFolder == "/f1" && session.currentFolderName == "Docs"
    ensures store.cache == map[]
  {
    var items := [Item("f1", "Docs", "/", "folder")];
    DocsIsSearched();
    assert HasFolder(items) by {
      assert IsFolder(items[0]);
    }
    assert |store.cache| + 1 == 1;
    shown := store.SetFolderHandler(Settled(reply), search);
    assert shown == Presented(1, Buttons(1, items)) && store.cache == map[1 := TokenEntries(items)];
    assert Buttons(1, items) == [Button("Docs", Encode(1, "f1"))] by {
      assert Buttons(1, items) == [ButtonFor(1, items[0])];
    }
    TopLevelFolder();
    assert '_' !in items[0].id;
    PresentedButtonSelects(store.cache, 1, items, 0);
    picked := store.SetFolderCallback(Encode(1, "f1"), session);
  }

  /**
   * Token ids are `len(cache) + 1`: with tokens 1 and 2 live, consuming token
   * 1 makes the next `/set_folder` take id 2, which replaces the live token 2.
   */
  method TokenIdCollision(store: TokenStore, session: Session, folderId: string, reply: Message,
                          search: string -> seq<Item>, items: seq<Item>)
    returns (picked: CallbackOutcome, shown: HandlerOutcome)
    requires store.cache.Keys == {1, 2} && folderId in store.cache[1] && '_' !in folderId
    requires !IsCancel(reply.text) && search(Query(reply.text)) == items && HasFolder(items)
    modifies store, session
    ensures picked == Selected(1, old(store.cache[1][folderId]))
    ensures shown == Presented(2, Buttons(2, items))
    ensures store.cache.Keys == {2} && store.cache[2] == TokenEntries(items)
  {
    assert Decode(Encode(1, folderId)) == Some((1, folderId)) by {
      DecodeEncode(1, folderId);
    }
    picked := store.SetFolderCallback(Encode(1, folderId), session);
    assert picked.Selected? && picked.token == 1;
    assert store.cache.Keys == {2};
    ghost var token := |store.cache| + 1;
    assert token == 2;
    shown := store.SetFolderHandler(Settled(reply), search);
    assert shown == Presented(token, Buttons(token, items)) && store.cache[token] == TokenEntries(items);
  }

  /**
   * A consumed token's id comes back: after the only token 1 is consumed, the
   * next `/set_folder` takes id 1 again, and a button of the old token that
   * names an id of the new search selects once more.
   */
  method TokenIdReused(store: TokenStore, session: Session, a: map<string, Candidate>,
                       folderId: string, reply: Message, search: string -> seq<Item>, items: seq<Item>)
    returns (picked: CallbackOutcome, shown: HandlerOutcome)
    requires store.cache == map[1 := a] && folderId in a && '_' !in folderId
    requires !IsCancel(reply.text) && search(Query(reply.text)) == items && HasFolder(items)
    requires |items| >= 1 && items[|items| - 1].id == folderId
    modifies store, session
    ensures picked == Selected(1, a[folderId])
    ensures shown.Presented? && shown.token == 1
    ensures Resolve(store.cache, Encode(1, folderId)) == Selected(1, Entry(items[|items| - 1]))
  {
    assert Decode(Encode(1, folderId)) == Some((1, folderId)) by {
      DecodeEncode(1, folderId);
    }
    picked := store.SetFolderCallback(Encode(1, folderId), session);
    assert picked == Selected(1, a[folderId]);
    assert store.cache == map[];
    assert |store.cache| + 1 == 1;
    shown := store.SetFolderHandler(Settled(reply), search);
    assert shown == Presented(1, Buttons(1, items)) && store.cache[1] == TokenEntries(items);
    PresentedButtonSelects(store.cache, 1, items, |items| - 1);
  }
}
