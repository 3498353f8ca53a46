/**
 * validate_s3_datastores in register_workflow.py: every data store is
 * checked in order. A non-empty endpoint that is not an http(s) address
 * stops registration; a store with placeholder or missing credentials is
 * skipped; every other store is probed, and a failing probe only prints a
 * warning.
 */
module S3Check {
  import opened Basics
  import opened Text
  import opened WorkflowModel

  const DEFAULT_REGION := "us-east-1"

  /** The S3 client one store is probed with ("" endpoint: the AWS default). */
  datatype Probe = Probe(store: string, endpoint: string, region: string, bucket: string)

  /** head_bucket is called only for a non-empty Bucket. */
  predicate HeadsBucket(p: Probe) { p.bucket != "" }

  predicate BadEndpoint(e: Entry) {
    var endpoint := Get(e.fields, "Endpoint", "");
    endpoint != "" && !StartsWith(endpoint, "http")
  }

  /** Credentials that are unset, empty, or still the store's placeholders. */
  predicate Placeholder(e: Entry) {
    var access := Get(e.fields, "AccessKey", "");
    var secret := Get(e.fields, "SecretKey", "");
    EndsWith(access, "_ACCESS_KEY") || EndsWith(secret, "_SECRET_KEY") || access == "" || secret == ""
  }

  /** Region, falling back to us-east-1 both when absent and when empty. */
  function StoreRegion(e: Entry): (r: string)
    ensures r != ""
    ensures "Region" in e.fields && e.fields["Region"] != "" ==> r == e.fields["Region"]
  {
    var region := Get(e.fields, "Region", DEFAULT_REGION);
    if region == "" then DEFAULT_REGION else region
  }

  /** The check of one store: an error, a skip (None), or the probe it makes. */
  function CheckStore(e: Entry): (r: Result<Option<Probe>, Fault>)
    ensures r.Err? <==> BadEndpoint(e)
    ensures r.Err? ==> r.error == InvalidEndpoint(e.name)
    ensures r == Ok(None) <==> !BadEndpoint(e) && Placeholder(e)
    ensures r.Ok? && r.value.Some? ==> r.value.value.store == e.name && r.value.value.region != ""
  {
    if BadEndpoint(e) then Err(InvalidEndpoint(e.name))
    else if Placeholder(e) then Ok(None)
    else Ok(Some(Probe(e.name, Get(e.fields, "Endpoint", ""), StoreRegion(e), Get(e.fields, "Bucket", ""))))
  }

  /** The whole check: the probes made, in DataStores order, or the first bad endpoint. */
  function Checked(stores: seq<Entry>): Result<seq<Probe>, Fault>
    decreases |stores|
  {
    if stores == [] then Ok([])
    else match Checked(stores[..|stores| - 1])
      case Err(f) => Err(f)
      case Ok(prev) =>
        match CheckStore(stores[|stores| - 1])
        case Err(f) => Err(f)
        case Ok(None) => Ok(prev)
        case Ok(Some(p)) => Ok(prev + [p])
  }

  /** A bad endpoint in a prefix decides the whole check. */
  lemma {:induction false} CheckedKeepsFirstError(stores: seq<Entry>, k: nat)
    requires k <= |stores|
    requires Checked(stores[..k]).Err?
    ensures Checked(stores) == Checked(stores[..k])
    decreases |stores| - k
  {
    if k < |stores| {
      assert stores[..k + 1][..k] == stores[..k];
      CheckedKeepsFirstError(stores, k + 1);
    } else {
      assert stores[..k] == stores;
    }
  }

  /** The stores whose credentials are real, in DataStores order. */
  function Unskipped(stores: seq<Entry>): (r: seq<Entry>)
    ensures forall e :: e in r <==> e in stores && !Placeholder(e)
    decreases |stores|
  {
    if stores == [] then []
    else
      var last := stores[|stores| - 1];
      Unskipped(stores[..|stores| - 1]) + (if Placeholder(last) then [] else [last])
  }

  /** The check passes exactly when no store has a bad endpoint. */
  lemma {:induction false} CheckedOkIff(stores: seq<Entry>)
    ensures Checked(stores).Ok? <==> forall i :: 0 <= i < |stores| ==> !BadEndpoint(stores[i])
    decreases |stores|
  {
    if stores != [] {
      var init := stores[..|stores| - 1];
      CheckedOkIff(init);
      assert forall i :: 0 <= i < |init| ==> init[i] == stores[i];
    }
  }

  /**
   * When the check passes, it probes exactly the stores without placeholder
   * credentials, one probe each and in order, each with that store's endpoint
   * and bucket.
   */
  lemma {:induction false} CheckedProbes(stores: seq<Entry>)
    requires Checked(stores).Ok?
    ensures |Checked(stores).value| == |Unskipped(stores)|
    ensures forall i :: 0 <= i < |Unskipped(stores)| ==>
      var p, e := Checked(stores).value[i], Unskipped(stores)[i];
      p.store == e.name && p.endpoint == Get(e.fields, "Endpoint", "") && p.bucket == Get(e.fields, "Bucket", "")
    decreases |stores|
  {
    if stores != [] {
      CheckedProbes(stores[..|stores| - 1]);
    }
  }

  /**
   * The loop over DataStores. The probe outcomes (one per probe made) only
   * decide which warnings are printed, so they do not appear in the result.
   */
  method ValidateStores(stores: seq<Entry>) returns (r: Result<seq<Probe>, Fault>)
    ensures r == Checked(stores)
  {
    var probes: seq<Probe> := [];
    var i := 0;
    while i < |stores|
      invariant 0 <= i <= |stores|
      invariant Checked(stores[..i]) == Ok(probes)
    {
      assert stores[..i + 1][..i] == stores[..i];
      var e := stores[i];
      var endpoint := Get(e.fields, "Endpoint", "");
      if endpoint != "" && !StartsWith(endpoint, "http") {
        CheckedKeepsFirstError(stores, i + 1);
        return Err(InvalidEndpoint(e.name));
      }
      var region := Get(e.fields, "Region", DEFAULT_REGION);
      if region == "" {
        region := DEFAULT_REGION;
      }
      var access := Get(e.fields, "AccessKey", "");
      var secret := Get(e.fields, "SecretKey", "");
      if !(EndsWith(access, "_ACCESS_KEY") || EndsWith(secret, "_SECRET_KEY") || access == "" || secret == "") {
        probes := probes + [Probe(e.name, endpoint, region, Get(e.fields, "Bucket", ""))];
      }
      i := i + 1;
    }
    assert stores[..i] == stores;
    return Ok(probes);
  }
}
