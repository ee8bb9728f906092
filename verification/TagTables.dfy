/**
 `pendingTags` is keyed by pointer hash (cqeventhandler.cpp). Because the hash is injective, the table
 behaves exactly like one keyed by the pointers themselves.
 */
module TagTables {
  import opened Bits
  import opened Hash

  /** A table keyed by address, as it is stored: keyed by the hash of the address. */
  ghost function Keyed<V>(table: map<Word, V>): map<Word, V> {
    ToHashIsBijective();
    map address | address in table :: ToHash(address) := table[address]
  }

  /** A key is found exactly if its address is present: fresh objects never collide with live ones. */
  lemma KeyedLookup<V>(table: map<Word, V>, address: Word)
    ensures ToHash(address) in Keyed(table) <==> address in table
    ensures address in table ==> Keyed(table)[ToHash(address)] == table[address]
  {
    ToHashIsBijective();
  }

  /** `try_emplace` and assignment through the key. */
  lemma KeyedInsert<V>(table: map<Word, V>, address: Word, value: V)
    ensures Keyed(table[address := value]) == Keyed(table)[ToHash(address) := value]
  {
    var stored := Keyed(table)[ToHash(address) := value];
    var inserted := Keyed(table[address := value]);
    forall key: Word
      ensures key in inserted <==> key in stored
      ensures key in inserted ==> inserted[key] == stored[key]
    {
      ToHashUndoesFromHash(key);
      KeyedLookup(table, FromHash(key));
      KeyedLookup(table[address := value], FromHash(key));
      FromHashUndoesToHash(address);
    }
  }

  /** `erase` through the key. */
  lemma KeyedErase<V>(table: map<Word, V>, address: Word)
    ensures Keyed(table - {address}) == Keyed(table) - {ToHash(address)}
  {
    var stored := Keyed(table) - {ToHash(address)};
    var erased := Keyed(table - {address});
    forall key: Word
      ensures key in erased <==> key in stored
      ensures key in erased ==> erased[key] == stored[key]
    {
      ToHashUndoesFromHash(key);
      KeyedLookup(table, FromHash(key));
      KeyedLookup(table - {address}, FromHash(key));
      FromHashUndoesToHash(address);
    }
  }
}
