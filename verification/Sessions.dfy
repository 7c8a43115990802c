/**
 The registry of live bridge sessions: Refresh rebuilds it from the descriptors on disk and
 must own every open client exactly once.
 */
module Sessions {
  import opened Basics
  import opened Protocol
  import opened BridgeClient

  // ---------- descriptors ----------

  /** A directory entry; `content` is None for a file that does not hold one descriptor. */
  datatype DirEntry = DirEntry(name: string, isDir: bool, content: Option<Descriptor>)

  /** os.ReadDir: names in a directory are distinct. */
  datatype Listing = Missing | Unreadable | Entries(entries: seq<DirEntry>)

  predicate EndsWith(name: string, suffix: string) {
    |suffix| <= |name| && name[|name| - |suffix|..] == suffix
  }

  /** The entry names a descriptor file whose content is valid and bears the file's own name. */
  predicate Describes(e: DirEntry) {
    && !e.isDir && EndsWith(e.name, ".json")
    && e.content.Some? && ValidDescriptor(e.content.value)
    && e.name == e.content.value.sessionId + ".json"
  }

  predicate DistinctNames(es: seq<DirEntry>) {
    forall i, j :: 0 <= i < j < |es| ==> es[i].name != es[j].name
  }

  predicate DistinctSessions(ds: seq<Descriptor>) {
    forall i, j :: 0 <= i < j < |ds| ==> ds[i].sessionId != ds[j].sessionId
  }

  /** What loadDescriptors keeps, in directory order. */
  function Loaded(es: seq<DirEntry>): seq<Descriptor> {
    if es == [] then []
    else (if Describes(es[0]) then [es[0].content.value] else []) + Loaded(es[1..])
  }

  lemma {:induction false} LoadedFrom(es: seq<DirEntry>, k: nat)
    requires k < |Loaded(es)|
    ensures exists i :: 0 <= i < |es| && Describes(es[i]) && es[i].content.value == Loaded(es)[k]
  {
    var first := if Describes(es[0]) then 1 else 0;
    if k < first {
      assert Describes(es[0]) && es[0].content.value == Loaded(es)[k];
    } else {
      LoadedFrom(es[1..], k - first);
      var i :| 0 <= i < |es[1..]| && Describes(es[1..][i]) && es[1..][i].content.value == Loaded(es[1..])[k - first];
      assert es[i + 1] == es[1..][i];
    }
  }

  /** Because a descriptor must be stored under its own id, no id is loaded twice. */
  lemma {:induction false} LoadedDistinct(es: seq<DirEntry>)
    requires DistinctNames(es)
    ensures DistinctSessions(Loaded(es))
    ensures forall k :: 0 <= k < |Loaded(es)| ==> ValidDescriptor(Loaded(es)[k])
  {
    if es != [] {
      var rest := Loaded(es[1..]);
      LoadedDistinct(es[1..]);
      forall k | 0 <= k < |rest| && Describes(es[0]) ensures rest[k].sessionId != es[0].content.value.sessionId {
        LoadedFrom(es[1..], k);
        var i :| 0 <= i < |es[1..]| && Describes(es[1..][i]) && es[1..][i].content.value == rest[k];
        assert es[0].name != es[i + 1].name;
      }
    }
  }

  /** loadDescriptors; None is its error. */
  method LoadDescriptors(listing: Listing) returns (descriptors: Option<seq<Descriptor>>)
    ensures descriptors == match listing
                           case Missing => Some([])
                           case Unreadable => None
                           case Entries(es) => Some(Loaded(es))
  {
    if listing.Missing? { return Some([]); }
    if listing.Unreadable? { return None; }
    var es, ds := listing.entries, [];
    assert es[0..] == es;
    for i := 0 to |es|
      invariant ds + Loaded(es[i..]) == Loaded(es)
    {
      assert es[i..][1..] == es[i + 1..];
      if Describes(es[i]) {
        assert ds + ([es[i].content.value] + Loaded(es[i + 1..])) == (ds + [es[i].content.value]) + Loaded(es[i + 1..]);
        ds := ds + [es[i].content.value];
      } else {
        assert ds + ([] + Loaded(es[i + 1..])) == ds + Loaded(es[i + 1..]);
      }
    }
    assert ds + Loaded([]) == ds;
    return Some(ds);
  }
}
