/** The coordination store as the discovery code sees it: a point-in-time
    snapshot of the tree, read through one session that is opened and closed. */
module ZooKeeperStore {
  import opened Exceptions
  import opened ServiceModel

  /** Children of every path that can be listed, and data of every node that can
      be read. A path missing from a map is one whose call fails. */
  datatype Snapshot = Snapshot(children: map<string, seq<string>>, data: map<string, Payload>)

  function ListChildren(snapshot: Snapshot, path: string): (r: Result<seq<string>>)
    ensures r.Ok? <==> path in snapshot.children
    ensures r.Ok? ==> r.value == snapshot.children[path]
    ensures r.Err? ==> r.error == ListFailed(path)
  {
    if path in snapshot.children then Ok(snapshot.children[path]) else Err(ListFailed(path))
  }

  function ReadData(snapshot: Snapshot, path: string): (r: Result<Payload>)
    ensures r.Ok? <==> path in snapshot.data
    ensures r.Ok? ==> r.value == snapshot.data[path]
    ensures r.Err? ==> r.error == ReadFailed(path)
  {
    if path in snapshot.data then Ok(snapshot.data[path]) else Err(ReadFailed(path))
  }

  /** A ZooKeeper client session. Reads are only issued while it is open. */
  class ZkSession {
    const snapshot: Snapshot
    var open: bool

    constructor (snapshot: Snapshot)
      ensures this.snapshot == snapshot && open
    {
      this.snapshot := snapshot;
      open := true;
    }

    method GetChildren(path: string) returns (r: Result<seq<string>>)
      requires open
      ensures r == ListChildren(snapshot, path)
    {
      r := ListChildren(snapshot, path);
    }

    /** exists(path, true) followed by getData(path, false, stat). */
    method GetData(path: string) returns (r: Result<Payload>)
      requires open
      ensures r == ReadData(snapshot, path)
    {
      r := ReadData(snapshot, path);
    }

    method Close()
      modifies this
      ensures !open
    {
      open := false;
    }
  }
}
