/** The kv_state table (internal/store/kvstate.go). */
module KVState {
  type Pairs = map<string, string>

  datatype KvError = Nil | NotFound | KeyRequired | ValueRequired | Stale | Fault

  function AfterInsertIfAbsent(kv: Pairs, key: string, value: string): Pairs {
    if key in kv then kv else kv[key := value]
  }

  function AfterDeleteIfValue(kv: Pairs, key: string, expected: string): Pairs {
    if key in kv && kv[key] == expected then kv - {key} else kv
  }

  /** Inserting an absent key and deleting it by its value is undone exactly. */
  lemma InsertThenDelete(kv: Pairs, key: string, value: string)
    ensures AfterDeleteIfValue(AfterInsertIfAbsent(kv, key, value), key, value)
      == if key in kv && kv[key] == value then kv - {key} else kv
  {
    if key !in kv {
      assert kv[key := value] - {key} == kv;
    }
  }

  method DriverFault() returns (fault: bool) {
    fault := *;
  }

  /** `faulted` records whether any statement so far failed in the driver. */
  class KVStateRepo {
    var pairs: Pairs
    ghost var faulted: bool

    constructor ()
      ensures pairs == map[] && !faulted
    {
      pairs, faulted := map[], false;
    }

    method Set(key: string, value: string) returns (err: KvError)
      modifies this
      ensures faulted == (old(faulted) || err == Fault)
      ensures err in {Nil, KeyRequired, ValueRequired, Fault}
      ensures pairs == if err == Nil then old(pairs)[key := value] else old(pairs)
      ensures err == KeyRequired <==> key == ""
      ensures err == ValueRequired <==> key != "" && value == ""
    {
      if key == "" { return KeyRequired; }
      if value == "" { return ValueRequired; }
      var fault := DriverFault();
      if fault { faulted := true; return Fault; }
      pairs := pairs[key := value];
      return Nil;
    }

    /** The lock-acquire primitive: the absence check and the write are one statement. */
    method InsertIfAbsent(key: string, value: string) returns (inserted: bool, err: KvError)
      modifies this
      ensures faulted == (old(faulted) || err == Fault)
      ensures err in {Nil, KeyRequired, ValueRequired, Fault}
      ensures pairs == if inserted then old(pairs)[key := value] else old(pairs)
      ensures inserted <==> err == Nil && key !in old(pairs)
      ensures err == KeyRequired <==> key == ""
      ensures err == ValueRequired <==> key != "" && value == ""
    {
      if key == "" { return false, KeyRequired; }
      if value == "" { return false, ValueRequired; }
      var fault := DriverFault();
      if fault { faulted := true; return false, Fault; }
      if key in pairs { return false, Nil; }
      pairs := pairs[key := value];
      return true, Nil;
    }

    /** The owner-tagged release primitive. */
    method DeleteIfValue(key: string, expected: string) returns (deleted: bool, err: KvError)
      modifies this
      ensures faulted == (old(faulted) || err == Fault)
      ensures err in {Nil, KeyRequired, ValueRequired, Fault}
      ensures pairs == if deleted then old(pairs) - {key} else old(pairs)
      ensures deleted <==> err == Nil && key in old(pairs) && old(pairs)[key] == expected
      ensures err == KeyRequired <==> key == ""
      ensures err == ValueRequired <==> key != "" && expected == ""
    {
      if key == "" { return false, KeyRequired; }
      if expected == "" { return false, ValueRequired; }
      var fault := DriverFault();
      if fault { faulted := true; return false, Fault; }
      if key !in pairs || pairs[key] != expected { return false, Nil; }
      pairs := pairs - {key};
      return true, Nil;
    }

    method CompareAndSwap(key: string, expected: string, value: string) returns (err: KvError)
      modifies this
      ensures faulted == (old(faulted) || err == Fault)
      ensures pairs == if err == Nil then old(pairs)[key := value] else old(pairs)
      ensures err == Nil ==> key in old(pairs) && old(pairs)[key] == expected
      ensures err == KeyRequired <==> key == ""
      ensures err == ValueRequired <==> key != "" && value == ""
      ensures err == NotFound ==> key !in pairs
      ensures err == Stale ==> key in pairs && pairs[key] != expected
    {
      if key == "" { return KeyRequired; }
      if value == "" { return ValueRequired; }
      var fault := DriverFault();
      if fault { faulted := true; return Fault; }
      if key in pairs && pairs[key] == expected {
        pairs := pairs[key := value];
        return Nil;
      }
      fault := DriverFault();
      if fault { faulted := true; return Fault; }
      if key !in pairs { return NotFound; }
      return Stale;
    }
  }
}
