/** The key-value store behind a zarr hierarchy node, as the request handler uses it:
    `store[key]` to read a value and `store[key] = value` to write one. The store belongs
    to the zarr library, outside the server; what its calls do beyond the mapping (an
    exception other than a missing key) is given to each call by the caller. */
module ZarrStore {
  import opened Wrappers

  type Key = string
  type Bytes = seq<bv8>

  /** An exception raised by a store call or by reading a request body, placed in Python's
      exception hierarchy:
      - Error: an instance of Exception (for a read, one other than the KeyError of a
        missing key, which the mapping itself models);
      - Interrupt: a BaseException that is not an Exception, such as the cancellation of
        the task that serves the request. */
  datatype Raised = Error | Interrupt

  /** What `store[key]` gives: the value, the KeyError of a missing key, or another exception. */
  datatype ReadResult = Found(value: Bytes) | Missing | Failed(raised: Raised)

  /** `store[key]` on a store holding `entries`, when the call raises `fault` (if any). */
  function Read(entries: map<Key, Bytes>, key: Key, fault: Option<Raised>): ReadResult {
    match fault
    case Some(e) => Failed(e)
    case None => if key in entries then Found(entries[key]) else Missing
  }

  /** The entries after `store[key] = value`; a raising call leaves them as they were. */
  function Write(entries: map<Key, Bytes>, key: Key, value: Bytes, fault: Option<Raised>): map<Key, Bytes> {
    if fault.None? then entries[key := value] else entries
  }

  /** A successful write is read back exactly, and a write changes no other key. */
  lemma WriteThenRead(entries: map<Key, Bytes>, key: Key, value: Bytes, other: Key)
    ensures Read(Write(entries, key, value, None), key, None) == Found(value)
    ensures other != key ==> Read(Write(entries, key, value, None), other, None) == Read(entries, other, None)
  {
  }

  /** A zarr Array or Group as the server sees it: its `read_only` flag, its `path` in the
      hierarchy ("" at the root) and the store it reads and writes. */
  datatype Node = Node(readOnly: bool, path: string, store: Store)

  /** A mutable mapping from keys to byte strings, shared by every request. */
  class Store {
    var entries: map<Key, Bytes>

    constructor (initial: map<Key, Bytes>)
      ensures entries == initial
    {
      entries := initial;
    }

    /** `store[key]`: the stored bytes, Missing for an absent key, or the raised exception. */
    method Get(key: Key, fault: Option<Raised>) returns (r: ReadResult)
      ensures fault.None? && key in entries ==> r == Found(entries[key])
      ensures fault.None? && key !in entries ==> r == Missing
      ensures fault.Some? ==> r == Failed(fault.value)
      ensures r == Read(entries, key, fault)
    {
      if fault.Some? {
        r := Failed(fault.value);
      } else if key in entries {
        r := Found(entries[key]);
      } else {
        r := Missing;
      }
    }

    /** `store[key] = value`: either stores the value under the key, or raises and changes nothing. */
    method Set(key: Key, value: Bytes, fault: Option<Raised>) returns (raised: Option<Raised>)
      modifies this
      ensures raised == fault
      ensures entries == Write(old(entries), key, value, fault)
    {
      raised := fault;
      if fault.None? {
        entries := entries[key := value];
      }
    }
  }
}
