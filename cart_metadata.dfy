/**
 * The cart description a cart checkout stores in the payment session's
 * metadata (billing/views.py, `f"{pid}:{qty}"` joined by "|"), and the
 * reconciler's reading of it, `[entry.split(":") for entry in
 * cart_map.split("|") if ":" in entry]`.
 */
module CartMetadata {
  import Text
  import Wrappers

  /** `f"{pid}:{qty}"`. */
  function EntryText(entry: (nat, nat)): (s: string)
    ensures ':' in s && '|' !in s
  {
    var s := Text.NatToString(entry.0) + ":" + Text.NatToString(entry.1);
    assert s[|Text.NatToString(entry.0)|] == ':';
    s
  }

  function EntryTexts(entries: seq<(nat, nat)>): (texts: seq<string>)
    ensures |texts| == |entries|
    ensures forall i :: 0 <= i < |entries| ==> texts[i] == EntryText(entries[i])
  {
    seq(|entries|, i requires 0 <= i < |entries| => EntryText(entries[i]))
  }

  /** `"|".join(cart_entries)`. */
  function Encode(entries: seq<(nat, nat)>): string {
    Text.Join(EntryTexts(entries), '|')
  }

  /** The fragments that contain a ':', in order. */
  function WithColon(parts: seq<string>): (kept: seq<string>)
    ensures forall i :: 0 <= i < |kept| ==> ':' in kept[i]
    ensures forall s :: s in kept <==> s in parts && ':' in s
    ensures |kept| <= |parts|
  {
    if |parts| == 0 then []
    else if ':' in parts[0] then [parts[0]] + WithColon(parts[1..])
    else WithColon(parts[1..])
  }

  /** Filtering keeps the order: the kept fragments of `a + b` are those of `a`, then those of `b`. */
  lemma {:induction false} WithColonAppend(a: seq<string>, b: seq<string>)
    ensures WithColon(a + b) == WithColon(a) + WithColon(b)
  {
    if |a| == 0 {
      assert a + b == b;
    } else {
      assert (a + b)[1..] == a[1..] + b;
      WithColonAppend(a[1..], b);
    }
  }

  /** What the reconciler iterates over: each kept fragment split at every ':'. */
  function Decode(cart: string): (fields: seq<seq<string>>)
    ensures |fields| <= |Text.Split(cart, '|')|
  {
    var kept := WithColon(Text.Split(cart, '|'));
    seq(|kept|, i requires 0 <= i < |kept| => SplitEntry(kept[i]))
  }

  function SplitEntry(fragment: string): seq<string> {
    Text.Split(fragment, ':')
  }

  lemma {:induction false} WithColonKeepsAll(parts: seq<string>)
    requires forall i :: 0 <= i < |parts| ==> ':' in parts[i]
    ensures WithColon(parts) == parts
  {
    if |parts| > 0 {
      WithColonKeepsAll(parts[1..]);
    }
  }

  lemma EntryFields(entry: (nat, nat))
    ensures Text.Split(EntryText(entry), ':') == [Text.NatToString(entry.0), Text.NatToString(entry.1)]
  {
    var a, b := Text.NatToString(entry.0), Text.NatToString(entry.1);
    assert ':' !in a && ':' !in b;
    Text.SplitAtSeparator(a, b, ':');
    Text.SplitWithoutSeparator(b, ':');
  }

  /**
   * Round trip: reading back an encoded cart gives, in order, one fragment
   * per entry, each made of exactly the printed product id and quantity,
   * and each of those parses back to the number that was printed.
   */
  lemma RoundTrip(entries: seq<(nat, nat)>)
    ensures |Decode(Encode(entries))| == |entries|
    ensures forall i :: 0 <= i < |entries| ==>
      Decode(Encode(entries))[i] == [Text.NatToString(entries[i].0), Text.NatToString(entries[i].1)]
    ensures forall i :: 0 <= i < |entries| ==>
      Text.ParseInt(Decode(Encode(entries))[i][0]) == Wrappers.Some(entries[i].0 as int) &&
      Text.ParseInt(Decode(Encode(entries))[i][1]) == Wrappers.Some(entries[i].1 as int)
  {
    var texts := EntryTexts(entries);
    if |entries| == 0 {
      assert Encode(entries) == "";
      assert Text.Split("", '|') == [""];
    } else {
      Text.SplitJoin(texts, '|');
      WithColonKeepsAll(texts);
    }
    forall i | 0 <= i < |entries|
      ensures Decode(Encode(entries))[i] == [Text.NatToString(entries[i].0), Text.NatToString(entries[i].1)]
      ensures Text.ParseInt(Decode(Encode(entries))[i][0]) == Wrappers.Some(entries[i].0 as int)
      ensures Text.ParseInt(Decode(Encode(entries))[i][1]) == Wrappers.Some(entries[i].1 as int)
    {
      EntryFields(entries[i]);
      Text.ParseNatToString(entries[i].0);
      Text.ParseNatToString(entries[i].1);
    }
  }
}
