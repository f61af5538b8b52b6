/** The UUID generator page (src/app/uuid/page.tsx). `crypto.randomUUID` is
    replaced by the sequence of identifiers it would return, in call order. */
module UuidGenerator {
  import opened Common
  import opened Text

  /** The quantity buttons. */
  const QuantityOptions: seq<nat> := [1, 5, 10, 25, 50, 100]

  predicate IsHexDigit(c: char) {
    '0' <= c <= '9' || 'a' <= c <= 'f' || 'A' <= c <= 'F'
  }

  /** The textual shape of a UUID: 36 characters, dashes at 8, 13, 18 and 23,
      hexadecimal digits elsewhere. */
  predicate IsUuidText(s: string) {
    |s| == 36 && forall i :: 0 <= i < 36 ==>
      if i == 8 || i == 13 || i == 18 || i == 23 then s[i] == '-' else IsHexDigit(s[i])
  }

  /** Upper-casing keeps the UUID shape, and a UUID has no line break. */
  lemma UpperUuid(s: string)
    requires IsUuidText(s)
    ensures IsUuidText(ToUpper(s))
    ensures '\n' !in s && '\n' !in ToUpper(s)
  {
  }

  /** The loop of `generateUuids`: `quantity` fresh identifiers, upper-cased
      when asked. */
  method NewUuids(random: seq<string>, quantity: nat, uppercase: bool) returns (batch: seq<string>)
    requires |random| >= quantity
    ensures |batch| == quantity
    ensures forall i :: 0 <= i < quantity ==>
      batch[i] == if uppercase then ToUpper(random[i]) else random[i]
  {
    batch := [];
    var i := 0;
    while i < quantity
      invariant 0 <= i <= quantity
      invariant |batch| == i
      invariant forall k :: 0 <= k < i ==>
        batch[k] == if uppercase then ToUpper(random[k]) else random[k]
    {
      var uuid := random[i];
      batch := batch + [if uppercase then ToUpper(uuid) else uuid];
      i := i + 1;
    }
  }

  /** The text Copy All writes: the identifiers one per line. */
  function CopyAllText(uuids: seq<string>): string {
    Join(uuids, '\n')
  }

  /** Splitting the Copy All text at line breaks gives back a non-empty list
      of entries that hold no line break. */
  lemma CopyAllSplits(uuids: seq<string>)
    requires |uuids| >= 1
    requires forall i :: 0 <= i < |uuids| ==> '\n' !in uuids[i]
    ensures Split(CopyAllText(uuids), '\n') == uuids
  {
    SplitJoin(uuids, '\n');
  }

  /** A generated list of UUIDs round-trips through the Copy All text. */
  lemma CopyAllRoundTrip(random: seq<string>, batch: seq<string>, uppercase: bool)
    requires |batch| >= 1 && |random| >= |batch|
    requires forall i :: 0 <= i < |batch| ==> IsUuidText(random[i])
    requires forall i :: 0 <= i < |batch| ==>
      batch[i] == if uppercase then ToUpper(random[i]) else random[i]
    ensures Split(CopyAllText(batch), '\n') == batch
  {
    forall i | 0 <= i < |batch| ensures '\n' !in batch[i] {
      UpperUuid(random[i]);
    }
    CopyAllSplits(batch);
  }

  class Generator {
    var uuids: seq<string>
    var quantity: nat
    var uppercase: bool
    var copiedIndex: Option<nat>
    var copiedAll: bool

    ghost predicate Valid()
      reads this
    {
      quantity in QuantityOptions
    }

    constructor ()
      ensures Valid()
      ensures uuids == [] && quantity == 1 && !uppercase && copiedIndex == None && !copiedAll
    {
      uuids, quantity, uppercase, copiedIndex, copiedAll := [], 1, false, None, false;
    }

    /** A quantity button. */
    method SetQuantity(n: nat)
      requires n in QuantityOptions
      modifies this
      ensures Valid() && quantity == n
      ensures uuids == old(uuids) && uppercase == old(uppercase)
      ensures copiedIndex == old(copiedIndex) && copiedAll == old(copiedAll)
    {
      quantity := n;
    }

    method SetUppercase(checked: bool)
      modifies this
      ensures uppercase == checked
      ensures uuids == old(uuids) && quantity == old(quantity)
      ensures copiedIndex == old(copiedIndex) && copiedAll == old(copiedAll)
    {
      uppercase := checked;
    }

    /** Generate: the list is replaced by a new batch of `quantity`
        identifiers and both copy marks are cleared. */
    method GenerateUuids(random: seq<string>)
      requires Valid()
      requires |random| >= quantity
      modifies this
      ensures quantity == old(quantity) && uppercase == old(uppercase)
      ensures Valid()
      ensures |uuids| == quantity && quantity in QuantityOptions
      ensures forall i :: 0 <= i < quantity ==>
        uuids[i] == if uppercase then ToUpper(random[i]) else random[i]
      ensures copiedIndex == None && !copiedAll
    {
      var newUuids := NewUuids(random, quantity, uppercase);
      uuids := newUuids;
      copiedIndex := None;
      copiedAll := false;
    }

    /** Copying one identifier marks its row when the write succeeded. */
    method CopyToClipboard(text: string, index: nat, written: bool)
      modifies this
      ensures copiedIndex == if written then Some(index) else old(copiedIndex)
      ensures uuids == old(uuids) && quantity == old(quantity)
      ensures uppercase == old(uppercase) && copiedAll == old(copiedAll)
    {
      if written {
        copiedIndex := Some(index);
      }
    }

    /** Copy All: the text handed to the clipboard, and the mark when the
        write succeeded. */
    method CopyAllToClipboard(written: bool) returns (text: string)
      modifies this
      ensures text == CopyAllText(uuids)
      ensures copiedAll == (old(copiedAll) || written)
      ensures uuids == old(uuids) && quantity == old(quantity)
      ensures uppercase == old(uppercase) && copiedIndex == old(copiedIndex)
    {
      text := CopyAllText(uuids);
      if written {
        copiedAll := true;
      }
    }

    /** Clear: no identifiers and no copy marks; the options stay. */
    method ClearAll()
      modifies this
      ensures uuids == [] && copiedIndex == None && !copiedAll
      ensures quantity == old(quantity) && uppercase == old(uppercase)
    {
      uuids, copiedIndex, copiedAll := [], None, false;
    }
  }
}
