/** The audit log: each logged interaction becomes one JSON object in the
    storage bucket, named after its endpoint and the second it was written. */
module AuditLog {
  import Api

  const Prefix := "logs/"
  const Extension := ".json"

  /** `strftime('%Y%m%d-%H%M%S')` output for a four-digit year: eight digits,
      a dash, six digits. */
  predicate IsStamp(stamp: string) {
    |stamp| == 15 && stamp[8] == '-'
    && forall i :: 0 <= i < 15 && i != 8 ==> '0' <= stamp[i] <= '9'
  }

  /** `logs/{endpoint}_{stamp}.json`. The endpoint and the stamp can be read
      back from their fixed places in the name. */
  function BlobName(endpoint: string, stamp: string): (name: string)
    ensures |name| == |Prefix| + |endpoint| + 1 + |stamp| + |Extension|
    ensures name[..|Prefix|] == Prefix
    ensures name[|Prefix|..|Prefix| + |endpoint|] == endpoint
    ensures name[|Prefix| + |endpoint|] == '_'
    ensures name[|name| - |Extension| - |stamp|..|name| - |Extension|] == stamp
    ensures name[|name| - |Extension|..] == Extension
  {
    var name := Prefix + endpoint + "_" + stamp + Extension;
    assert name[|name| - |Extension|..] == Extension;
    name
  }

  /** With stamps of one width, different endpoints or different seconds give
      different names; within one second, one endpoint always gets the same
      name, so a second write there replaces the first. */
  lemma {:induction false} BlobNameInjective(e1: string, s1: string, e2: string, s2: string)
    requires IsStamp(s1) && IsStamp(s2)
    ensures BlobName(e1, s1) == BlobName(e2, s2) <==> e1 == e2 && s1 == s2
  {
    var n1, n2 := BlobName(e1, s1), BlobName(e2, s2);
    if n1 == n2 {
      assert |e1| == |e2|;
      assert e1 == n1[|Prefix|..|Prefix| + |e1|];
      assert s1 == n1[|n1| - |Extension| - 15..|n1| - |Extension|];
    }
  }

  /** The JSON document stored for one interaction. */
  datatype LogRecord = LogRecord(timestamp: string, endpoint: string, input: string, output: string)

  /** A named object to upload to the bucket. */
  datatype StoredLog = StoredLog(name: string, record: LogRecord)

  /** What `log_to_gcs` uploads for one logged call. `stamp` is the
      second-granularity clock reading used in the name and `isoTime` the
      separate ISO-8601 reading stored in the record. */
  function LogObject(call: Api.LogCall, stamp: string, isoTime: string): (o: StoredLog)
    ensures o.name == BlobName(call.endpoint, stamp)
    ensures o.record == LogRecord(isoTime, call.endpoint, call.input, call.output)
  {
    StoredLog(BlobName(call.endpoint, stamp), LogRecord(isoTime, call.endpoint, call.input, call.output))
  }
}
