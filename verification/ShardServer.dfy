// The shard group's state machine as the code has it: an object whose DoOp methods
// update table, status and nums in place.
module ShardServer {
  import opened Kv
  import opened ShardGroup

  class KVServer {
    const hash: Hash
    var table: Table
    var status: array<Status>
    var nums: array<nat>

    ghost predicate Valid()
      reads this
    {
      status.Length == nums.Length && status as object != nums as object && HashOk(hash, nums.Length)
    }

    ghost function View(): (g: Group)
      reads this, status, nums
    {
      Group(table, status[..], nums[..])
    }

    constructor (hash: Hash, shards: nat, isFirst: bool)
      requires HashOk(hash, shards)
      ensures Valid() && fresh(status) && fresh(nums) && nums.Length == shards && this.hash == hash
      ensures View() == NewGroup(isFirst, shards)
    {
      this.hash := hash;
      table := map[];
      status := new Status[shards](_ => Absent);
      nums := new nat[shards](_ => 0);
      new;
      if isFirst {
        var i := 0;
        while i < shards
          invariant 0 <= i <= shards
          invariant status.Length == nums.Length == shards && status as object != nums as object
          invariant table == map[] && fresh(status) && fresh(nums) && nums[..] == seq(shards, _ => 0)
          invariant forall k :: 0 <= k < i ==> status[k] == Serving
        {
          status[i] := Serving;
          i := i + 1;
        }
      }
      assert status[..] == NewGroup(isFirst, shards).status;
    }

    method Get(key: string) returns (r: Reply)
      requires Valid()
      ensures r == GetOp(hash, View(), key)
      ensures r.err == ErrWrongGroup <==> status[hash(key)] != Serving
      ensures r.err == ErrNoKey <==> status[hash(key)] == Serving && key !in table
    {
      if status[hash(key)] != Serving {
        return GetReply("", 0, ErrWrongGroup);
      }
      if key in table {
        return GetReply(table[key].value, table[key].version, OK);
      }
      return GetReply("", 0, ErrNoKey);
    }

    method Put(key: string, value: string, version: nat) returns (err: Err)
      requires Valid()
      modifies this`table
      ensures Valid() && (View(), err) == PutOp(hash, old(View()), key, value, version)
      ensures err == ErrWrongGroup <==> status[hash(key)] != Serving
      ensures err == OK <==> status[hash(key)] == Serving && version == VersionOf(old(table), key)
    {
      if status[hash(key)] != Serving {
        return ErrWrongGroup;
      }
      if key !in table {
        if version != 0 {
          return ErrNoKey;
        }
        table := table[key := Row(value, version + 1)];
        return OK;
      }
      if table[key].version == version {
        table := table[key := Row(value, version + 1)];
        return OK;
      }
      return ErrVersion;
    }

    // The rows of one shard, collected key by key.
    method CopyShard(s: nat) returns (rows: Table)
      ensures rows == Part(hash, table, s)
    {
      rows := map[];
      var todo := table.Keys;
      while todo != {}
        invariant todo <= table.Keys
        invariant rows == map k | k in table && k !in todo && hash(k) == s :: table[k]
        decreases |todo|
      {
        var k :| k in todo;
        todo := todo - {k};
        if hash(k) == s {
          rows := rows[k := table[k]];
        }
      }
    }

    method Freeze(s: nat, num: nat) returns (rep: FreezeReply)
      requires Valid() && s < nums.Length
      modifies status, nums
      ensures (View(), rep) == FreezeOp(hash, old(View()), s, num)
    {
      if num < nums[s] || (num == nums[s] && status[s] != Frozen) {
        return FreezeReply(map[], nums[s], ErrStaleNum);
      }
      var was := nums[s];
      nums[s] := num;
      status[s] := Frozen;
      var rows := CopyShard(s);
      rep := FreezeReply(rows, was, OK);
    }

    method AddRows(rows: Table)
      modifies this`table
      ensures table == old(table) + rows
    {
      var todo := rows.Keys;
      while todo != {}
        invariant todo <= rows.Keys
        invariant table == old(table) + (map k | k in rows && k !in todo :: rows[k])
        decreases |todo|
      {
        var k :| k in todo;
        todo := todo - {k};
        table := table[k := rows[k]];
      }
      assert (map k | k in rows && k !in todo :: rows[k]) == rows;
    }

    method Install(s: nat, rows: Table, num: nat) returns (err: Err)
      requires Valid() && s < nums.Length
      modifies this`table, status, nums
      ensures (View(), err) == InstallOp(old(View()), s, rows, num)
    {
      if nums[s] > num {
        return ErrStaleNum;
      }
      if nums[s] == num {
        if status[s] != Serving {
          return ErrStaleNum;
        }
        return OK;
      }
      nums[s] := num;
      status[s] := Serving;
      AddRows(rows);
      err := OK;
    }

    method DropShard(s: nat)
      modifies this`table
      ensures table == Without(hash, old(table), s)
    {
      var todo := table.Keys;
      while todo != {}
        invariant todo <= old(table).Keys
        invariant table == map k | k in old(table) && (k in todo || hash(k) != s) :: old(table)[k]
        decreases |todo|
      {
        var k :| k in todo;
        todo := todo - {k};
        if hash(k) == s {
          table := table - {k};
        }
      }
    }

    method Delete(s: nat, num: nat) returns (err: Err)
      requires Valid() && s < nums.Length
      modifies this`table, status, nums
      ensures (View(), err) == DeleteOp(hash, old(View()), s, num)
    {
      if num < nums[s] {
        return ErrStaleNum;
      }
      if num == nums[s] && status[s] == Absent {
        return OK;
      }
      if num == nums[s] && status[s] == Serving {
        return ErrStaleNum;
      }
      nums[s] := num;
      status[s] := Absent;
      DropShard(s);
      err := OK;
    }

    method Snapshot() returns (data: Group)
      requires Valid()
      ensures data == View()
    {
      data := Group(table, status[..], nums[..]);
    }

    method Restore(data: Group)
      requires Valid() && GroupOk(data, nums.Length)
      modifies this
      ensures Valid() && fresh(status) && fresh(nums) && View() == data
    {
      table := data.table;
      var st := new Status[|data.status|](i requires 0 <= i < |data.status| => data.status[i]);
      var ns := new nat[|data.nums|](i requires 0 <= i < |data.nums| => data.nums[i]);
      status, nums := st, ns;
      assert status[..] == data.status && nums[..] == data.nums;
    }
  }
}
