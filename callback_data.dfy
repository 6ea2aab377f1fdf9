/**
 * The data a folder-choice button carries, `set_folder_<token>_<folder id>`,
 * and how the callback handler takes it apart again: `split("_")[2:]`
 * unpacked into two names, the first converted with `int`.
 */
module CallbackData {
  import opened Wrappers
  import opened PyStr

  /**
   * `f"set_folder_{token}_{folder_id}"`: every button's data begins with the
   * prefix the callback handler's filter looks for.
   */
  function Encode(token: nat, folderId: string): (data: string)
    ensures |data| >= 11 && data[..11] == "set_folder_"
  {
    "set_folder_" + NatToString(token) + "_" + folderId
  }

  /**
   * `a, b = data.split("_")[2:]`: the unpacking succeeds only when the data
   * has exactly four underscore-separated pieces; the first two are not checked.
   */
  function Parse(data: string): (r: Option<(string, string)>)
    ensures r.Some? ==> '_' !in r.value.0 && '_' !in r.value.1
  {
    var parts := Split(data, '_');
    if |parts| == 4 then Some((parts[2], parts[3])) else None
  }

  /** Parse, then `int` of the token piece; either failing raises (None here). */
  function Decode(data: string): (r: Option<(int, string)>)
    ensures r.Some? ==> |Split(data, '_')| == 4 && '_' !in r.value.1
  {
    match Parse(data)
    case None => None
    case Some((tokenText, folderId)) =>
      match ParseInt(tokenText)
      case None => None
      case Some(token) => Some((token, folderId))
  }

  /** The button data splits into `set`, `folder`, the token and the folder id pieces. */
  lemma SplitEncoded(token: nat, folderId: string)
    ensures Split(Encode(token, folderId), '_') ==
            ["set", "folder", NatToString(token)] + Split(folderId, '_')
  {
    var t := NatToString(token);
    assert '_' !in t by {
      assert AllDigits(t);
    }
    var tail := t + ['_'] + folderId;
    var rest := "folder" + ['_'] + tail;
    assert Encode(token, folderId) == "set" + ['_'] + rest;
    SplitAfterPiece(t, '_', folderId);
    SplitAfterPiece("folder", '_', tail);
    SplitAfterPiece("set", '_', rest);
    assert ["set"] + (["folder"] + ([t] + Split(folderId, '_'))) ==
           ["set", "folder", t] + Split(folderId, '_');
  }

  /**
   * Round trip: the handler gets back the token and the folder id exactly when
   * the folder id has no underscore; otherwise the unpacking fails.
   */
  lemma DecodeEncode(token: nat, folderId: string)
    ensures Decode(Encode(token, folderId)) ==
            if '_' !in folderId then Some((token, folderId)) else None
  {
    SplitEncoded(token, folderId);
    if '_' !in folderId {
      SplitWithoutSeparator(folderId, '_');
      ParseIntOfNatToString(token);
    } else {
      SplitWithSeparator(folderId, '_');
    }
  }

  /** Two buttons carry the same data only for the same (token, id). */
  lemma EncodeInjective(t1: nat, f1: string, t2: nat, f2: string)
    requires Encode(t1, f1) == Encode(t2, f2)
    ensures t1 == t2 && f1 == f2
  {
    SplitEncoded(t1, f1);
    SplitEncoded(t2, f2);
    assert Split(Encode(t1, f1), '_')[2] == NatToString(t1);
    assert Split(Encode(t2, f2), '_')[2] == NatToString(t2);
    NatToStringInjective(t1, t2);
    var pre := "set_folder_" + NatToString(t1) + "_";
    assert Encode(t1, f1) == pre + f1 && Encode(t2, f2) == pre + f2;
    assert f1 == (pre + f1)[|pre|..];
    assert f2 == (pre + f2)[|pre|..];
  }
}
