// The escrow generator's helpers (escrow-generator/main.go): the names of
// the deposit files and the set of contacts still to be fetched.

module Escrow {
  import opened Common

  const FileTypeFull := "full"
  const FileTypeIncremental := "inc"
  const FileTypeHandle := "handle"
  const FileTypeHash := "hash"

  /** The part of a deposit file name before the index:
      "<path>/<IANA ID>_RDE_<date>_<type>". */
  function FileNameStem(outputPath: string, ianaID: int, date: string, fileType: string): string
  {
    outputPath + "/" + IntToString(ianaID) + "_RDE_" + date + "_" + fileType
  }

  /** FileNames: the gzip name and the raw name of a deposit file. The hash
      file carries no index and is not compressed; every other file gets
      "_<index>" after its type and ".gz" after its extension. `date` is
      the day the generator runs on, as "2006-01-02" lays it out. */
  function FileNames(outputPath: string, ianaID: int, fileType: string, index: int, extension: string, date: string): (r: (string, string))
    ensures var stem := FileNameStem(outputPath, ianaID, date, fileType);
      fileType == FileTypeHash ==> r.0 == r.1 && r.1 == stem + "." + extension
    ensures var stem := FileNameStem(outputPath, ianaID, date, fileType);
      fileType != FileTypeHash ==>
        r.1 == stem + "_" + IntToString(index) + "." + extension && r.0 == r.1 + ".gz"
  {
    var indexString := if fileType != FileTypeHash then "_" + IntToString(index) else "";
    var suffix := if fileType != FileTypeHash then ".gz" else "";
    var head := FileNameStem(outputPath, ianaID, date, fileType) + indexString + "." + extension;
    (head + suffix, head)
  }

  /** The raw name is the gzip name without its ".gz": the whole name for
      the hash file, all but the last three characters otherwise. */
  lemma RawNameIsGzNameWithoutSuffix(outputPath: string, ianaID: int, fileType: string, index: int, extension: string, date: string)
    ensures var (gz, raw) := FileNames(outputPath, ianaID, fileType, index, extension, date);
      if fileType == FileTypeHash then gz == raw
      else HasSuffix(gz, ".gz") && raw == gz[..|gz| - 3]
  {
    var (gz, raw) := FileNames(outputPath, ianaID, fileType, index, extension, date);
    if fileType != FileTypeHash {
      assert gz == raw + ".gz";
      assert gz[..|gz| - 3] == raw;
      assert gz[|gz| - 3..] == ".gz";
    }
  }

  /** The chunks of one deposit never share a file: a different index gives
      a different file name. */
  lemma ChunkNamesDistinct(outputPath: string, ianaID: int, fileType: string, i: int, j: int, extension: string, date: string)
    requires fileType != FileTypeHash
    requires FileNames(outputPath, ianaID, fileType, i, extension, date).0 == FileNames(outputPath, ianaID, fileType, j, extension, date).0
    ensures i == j
  {
    var stem := FileNameStem(outputPath, ianaID, date, fileType);
    var tail := "." + extension + ".gz";
    SplitName(stem, IntToString(i), extension);
    SplitName(stem, IntToString(j), extension);
    CancelEnds(stem + "_", IntToString(i), IntToString(j), tail);
    IntToStringInjective(i, j);
  }

  lemma SplitName(stem: string, index: string, extension: string)
    ensures stem + ("_" + index) + "." + extension + ".gz" == (stem + "_") + index + ("." + extension + ".gz")
  {
  }

  lemma CancelEnds(a: string, x: string, y: string, b: string)
    requires a + x + b == a + y + b
    ensures x == y
  {
    assert |x| == |y|;
    assert x == (a + x + b)[|a|..|a| + |x|];
    assert y == (a + y + b)[|a|..|a| + |y|];
  }

  // ---------------------------------------------------------------------
  // CheckOrAdd

  /** The contact map after CheckOrAdd: an absent ID is added with no
      contact fetched yet (None); a present one is left as it is. */
  function CheckedOrAdded<V>(cons: map<int, Option<V>>, contactID: int): map<int, Option<V>>
  {
    if contactID in cons then cons else cons[contactID := None]
  }

  /** CheckOrAdd only ever adds the one ID, never changes an entry already
      there, and a second call for the same ID changes nothing. */
  lemma CheckOrAddKeepsEntries<V>(cons: map<int, Option<V>>, contactID: int)
    ensures CheckedOrAdded(cons, contactID).Keys == cons.Keys + {contactID}
    ensures forall k :: k in cons ==> CheckedOrAdded(cons, contactID)[k] == cons[k]
    ensures contactID !in cons ==> CheckedOrAdded(cons, contactID)[contactID] == None
    ensures CheckedOrAdded(CheckedOrAdded(cons, contactID), contactID) == CheckedOrAdded(cons, contactID)
  {
  }

  /** The contacts the domains refer to, by ID, each with its export once
      fetched. */
  class ContactQueue<V> {
    var cons: map<int, Option<V>>

    constructor ()
      ensures cons == map[]
    {
      cons := map[];
    }

    /** CheckOrAdd. */
    method CheckOrAdd(contactID: int)
      modifies this
      ensures cons == CheckedOrAdded(old(cons), contactID)
    {
      if contactID !in cons {
        cons := cons[contactID := None];
      }
    }
  }
}
