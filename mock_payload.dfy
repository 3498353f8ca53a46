/**
 * MockFaaSrPayload in register_workflow.py: a read-through view of the
 * workflow document in which written keys shadow the document's own.
 */
module MockPayload {
  import opened Basics
  import opened WorkflowModel

  class MockFaaSrPayload {
    /** The workflow document; never written through this object. */
    const base: Data
    /** The keys written through this object. */
    var overwritten: Data

    /** What a reader sees: the overwritten value of a key if there is one, else the document's. */
    function View(): (v: Data)
      reads this
      ensures v.Keys == base.Keys + overwritten.Keys
      ensures forall k :: k in overwritten ==> v[k] == overwritten[k]
      ensures forall k :: k in base && k !in overwritten ==> v[k] == base[k]
    {
      base + overwritten
    }

    constructor (d: Data)
      ensures base == d && overwritten == map[]
      ensures View() == d
    {
      base := d;
      overwritten := map[];
    }

    /** payload[key]; None stands for the KeyError raised for an unknown key. */
    method GetItem(key: string) returns (r: Option<Value>)
      ensures r == (if key in View() then Some(View()[key]) else None)
    {
      if key in overwritten {
        return Some(overwritten[key]);
      } else if key in base {
        return Some(base[key]);
      }
      return None;
    }

    /** payload.get(key, default). */
    method Get(key: string, default: Value) returns (r: Value)
      ensures r == (if key in View() then View()[key] else default)
    {
      if key in overwritten {
        return overwritten[key];
      } else if key in base {
        return base[key];
      }
      return default;
    }

    /** payload[key] = value: only the overwritten layer changes, and the key now reads back as value. */
    method SetItem(key: string, value: Value)
      modifies this
      ensures overwritten == old(overwritten)[key := value]
      ensures View() == old(View())[key := value]
    {
      overwritten := overwritten[key := value];
    }
  }
}
