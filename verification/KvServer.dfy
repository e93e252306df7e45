module KvServer {
  // The key/value server and its clerk (src/kvsrv/server.go, src/kvsrv/client.go): what each handler
  // does, as a function of the server's tables, and the server and clerk as they are written.

  import opened KvModel

  /** The last request answered to a client, and the answer. */
  datatype Dup = Dup(num: int, value: string)

  datatype Tables = Tables(data: map<string, string>, table: map<int, Dup>)

  datatype Request = Request(client: int, num: int, input: KvInput)

  /** Get keeps no record of a client that has never appended. */
  function OnGet(st: Tables, client: int, num: int, key: string): (Tables, string) {
    if client !in st.table then (st, Lookup(st.data, key))
    else if st.table[client].num == num then (st, st.table[client].value)
    else (st.(table := st.table[client := Dup(num, Lookup(st.data, key))]), Lookup(st.data, key))
  }

  /** Nor does Put. */
  function OnPut(st: Tables, client: int, num: int, key: string, value: string): Tables {
    if client !in st.table then st.(data := st.data[key := value])
    else if st.table[client].num == num then st
    else Tables(st.data[key := value], st.table[client := Dup(num, "")])
  }

  function OnAppend(st: Tables, client: int, num: int, key: string, value: string): (Tables, string) {
    if client in st.table && st.table[client].num == num then (st, st.table[client].value)
    else if client !in st.table && num == -1 then (st.(table := st.table[client := Dup(-1, "")]), "")
    else
      var old' := Lookup(st.data, key);
      (Tables(st.data[key := old' + value], st.table[client := Dup(num, old')]), old')
  }

  function Handle(st: Tables, r: Request): (Tables, string) {
    if r.input.op == 0 then OnGet(st, r.client, r.num, r.input.key)
    else if r.input.op == 1 then (OnPut(st, r.client, r.num, r.input.key, r.input.value), "")
    else OnAppend(st, r.client, r.num, r.input.key, r.input.value)
  }

  /** The request is the last one of its client; Append takes a client without a record to be at -1. */
  predicate Recorded(st: Tables, r: Request) {
    if r.client in st.table then st.table[r.client].num == r.num else r.input.op !in {0, 1} && r.num == -1
  }

  /**
   A request is executed iff it is not the recorded one: then it does to the store what the model
   says, and its answer is the model's; else the store stays as it is and the answer is the recorded one.
   */
  lemma ExecutedIff(st: Tables, r: Request)
    requires r.input.op in {0, 1, 3}
    ensures var (st', v) := Handle(st, r);
            if Recorded(st, r) then
              && st'.data == st.data
              && v == (if r.client in st.table && r.input.op != 1 then st.table[r.client].value else "")
            else
              && StoreStep(st.data, r.input, KvOutput(v)).0
              && forall key :: Lookup(st'.data, key) == Lookup(StoreStep(st.data, r.input, KvOutput(v)).1, key)
    ensures var (st', v) := Handle(st, r);
            && st'.table.Keys == st.table.Keys + (if r.input.op == 3 then {r.client} else {})
            && (r.client in st'.table ==> st'.table[r.client].num == r.num)
            && (r.client in st'.table && r.input.op != 1 ==> st'.table[r.client].value == v)
            && forall c :: c in st.table && c != r.client ==> c in st'.table && st'.table[c] == st.table[c]
  {}

  class DupTable {
    var num: int
    var value: string

    constructor (num: int, value: string)
      ensures this.num == num && this.value == value
    {
      this.num, this.value := num, value;
    }
  }

  class KVServer {
    var data: map<string, string>
    var clientTable: map<int, DupTable>

    /** No two clients share a record. */
    ghost predicate Valid()
      reads this
    {
      forall c, d :: c in clientTable && d in clientTable && c != d ==> clientTable[c] != clientTable[d]
    }

    ghost function Contents(): Tables
      reads this, clientTable.Values
    {
      Tables(data, map c | c in clientTable :: Dup(clientTable[c].num, clientTable[c].value))
    }

    constructor ()
      ensures Valid() && clientTable == map[] && Contents() == Tables(map[], map[])
    {
      data, clientTable := map[], map[];
    }

    method Get(client: int, num: int, key: string) returns (value: string)
      requires Valid()
      modifies clientTable.Values
      ensures Valid() && (Contents(), value) == OnGet(old(Contents()), client, num, key)
    {
      if client !in clientTable {
        return Lookup(data, key);
      }
      var dt := clientTable[client];
      if dt.num == num {
        return dt.value;
      }
      dt.num := num;
      dt.value := Lookup(data, key);
      value := dt.value;
      forall c | c in old(clientTable) && c != client
        ensures clientTable[c].num == old(clientTable[c].num) && clientTable[c].value == old(clientTable[c].value)
      {
        assert clientTable[c] != dt;
      }
      assert Contents().table == old(Contents()).table[client := Dup(num, value)];
    }

    method Put(client: int, num: int, key: string, value: string)
      requires Valid()
      modifies `data, clientTable.Values
      ensures Valid() && Contents() == OnPut(old(Contents()), client, num, key, value)
    {
      if client !in clientTable {
        data := data[key := value];
        return;
      }
      var dt := clientTable[client];
      if dt.num == num {
        return;
      }
      dt.num := num;
      dt.value := "";
      data := data[key := value];
      forall c | c in old(clientTable) && c != client
        ensures clientTable[c].num == old(clientTable[c].num) && clientTable[c].value == old(clientTable[c].value)
      {
        assert clientTable[c] != dt;
      }
      assert Contents().table == old(Contents()).table[client := Dup(num, "")];
    }

    method Append(client: int, num: int, key: string, value: string) returns (before: string)
      requires Valid()
      modifies this, clientTable.Values
      ensures Valid() && (Contents(), before) == OnAppend(old(Contents()), client, num, key, value)
      ensures fresh(clientTable.Values - old(clientTable.Values))
    {
      if client !in clientTable {
        var made := new DupTable(-1, "");
        clientTable := clientTable[client := made];
      }
      var dt := clientTable[client];
      if dt.num == num {
        assert client in old(clientTable) ==> Contents() == old(Contents());
        assert client !in old(clientTable) ==> Contents().table == old(Contents()).table[client := Dup(-1, "")];
        return dt.value;
      }
      dt.num := num;
      dt.value := Lookup(data, key);
      before := dt.value;
      data := data[key := Lookup(data, key) + value];
      forall c | c in old(clientTable) && c != client
        ensures clientTable[c].num == old(clientTable[c].num) && clientTable[c].value == old(clientTable[c].value)
      {
        assert clientTable[c] != dt;
      }
      assert Contents().table == old(Contents()).table[client := Dup(num, before)];
    }
  }

  // ---- the clerk ----

  /** What may become of one Call. */
  datatype Fate = RequestLost | ReplyLost | Delivered

  /** A request that the server handles `n` times over, with nothing in between. */
  function Repeat(st: Tables, r: Request, n: nat): (Tables, string) {
    if n == 0 then (st, "") else Handle(Repeat(st, r, n - 1).0, r)
  }

  /** How often the server gets to see a request that is sent until a reply arrives. */
  function Ran(fates: seq<Fate>): nat {
    if fates == [] then 0
    else match fates[0]
      case RequestLost => Ran(fates[1..])
      case ReplyLost => 1 + Ran(fates[1..])
      case Delivered => 1
  }

  /** Handled more than once, with nothing in between, a request does what it does once. */
  lemma {:induction false} RetriesAlone(st: Tables, r: Request, n: nat)
    requires n > 0
    ensures Repeat(st, r, n) == Handle(st, r)
  {
    if n == 1 {
      assert Repeat(st, r, 0) == (st, "");
    } else {
      RetriesAlone(st, r, n - 1);
      var st' := Handle(st, r).0;
      assert st'.data[r.input.key := r.input.value] == st.data[r.input.key := r.input.value] || r.input.op != 1;
    }
  }

  /** `fates` says what becomes of the calls a clerk makes; it gives up only when they run out. */
  class Clerk {
    const clientId: int
    var num: int

    constructor (clientId: int)
      ensures this.clientId == clientId && num == 0
    {
      this.clientId, num := clientId, 0;
    }

    method Get(server: KVServer, key: string, fates: seq<Fate>) returns (ok: bool, value: string)
      requires server.Valid()
      modifies `num, server.clientTable.Values
      ensures server.Valid() && num == old(num) + 1 && (ok <==> Delivered in fates)
      ensures var r := Request(clientId, num, KvInput(0, key, ""));
              && server.Contents() == Repeat(old(server.Contents()), r, Ran(fates)).0
              && (ok ==> Ran(fates) > 0 && value == Repeat(old(server.Contents()), r, Ran(fates)).1)
    {
      num := num + 1;
      ghost var r, n := Request(clientId, num, KvInput(0, key, "")), 0;
      ok, value := false, "";
      var i := 0;
      while !ok && i < |fates|
        invariant i <= |fates| && server.Valid() && (ok ==> Delivered in fates && n > 0) &&
                  (!ok ==> Delivered !in fates[..i])
        invariant num == old(num) + 1
        invariant server.Contents() == Repeat(old(server.Contents()), r, n).0
        invariant ok ==> value == Repeat(old(server.Contents()), r, n).1
        invariant n + (if ok then 0 else Ran(fates[i..])) == Ran(fates)
      {
        assert fates[i..][1..] == fates[i + 1..];
        if fates[i] != RequestLost {
          var reply := server.Get(clientId, num, key);
          n := n + 1;
          if fates[i] == Delivered {
            ok, value := true, reply;
          }
        }
        i := i + 1;
      }
    }

    method PutAppend(server: KVServer, key: string, value: string, op: string, fates: seq<Fate>)
        returns (ok: bool, before: string)
      requires server.Valid() && (op == "Put" || op == "Append")
      modifies `num, server, server.clientTable.Values
      ensures server.Valid() && num == old(num) + 1 && (ok <==> Delivered in fates)
      ensures fresh(server.clientTable.Values - old(server.clientTable.Values))
      ensures var r := Request(clientId, num, KvInput(if op == "Put" then 1 else 3, key, value));
              && server.Contents() == Repeat(old(server.Contents()), r, Ran(fates)).0
              && (ok ==> Ran(fates) > 0 && before == Repeat(old(server.Contents()), r, Ran(fates)).1)
    {
      num := num + 1;
      ghost var r, n := Request(clientId, num, KvInput(if op == "Put" then 1 else 3, key, value)), 0;
      ok, before := false, "";
      var i := 0;
      while !ok && i < |fates|
        invariant i <= |fates| && server.Valid() && (ok ==> Delivered in fates && n > 0) &&
                  (!ok ==> Delivered !in fates[..i])
        invariant num == old(num) + 1 && fresh(server.clientTable.Values - old(server.clientTable.Values))
        invariant server.Contents() == Repeat(old(server.Contents()), r, n).0
        invariant ok ==> before == Repeat(old(server.Contents()), r, n).1
        invariant n + (if ok then 0 else Ran(fates[i..])) == Ran(fates)
      {
        assert fates[i..][1..] == fates[i + 1..];
        if fates[i] != RequestLost {
          var reply := "";
          if op == "Put" {
            server.Put(clientId, num, key, value);
          } else {
            reply := server.Append(clientId, num, key, value);
          }
          n := n + 1;
          if fates[i] == Delivered {
            ok, before := true, reply;
          }
        }
        i := i + 1;
      }
    }
  }
}
