/** The configured resource records (config.py). */
module Config {
  import opened Wrappers

  /** The log label of a record: `[rr.domain. type]`. */
  function Label(rr: string, domain: string, recordType: string): (s: string)
    ensures |s| == |rr| + |domain| + |recordType| + 5
    ensures s[0] == '[' && s[|s| - 1] == ']'
    ensures s[1..1 + |rr|] == rr && s[1 + |rr|] == '.'
    ensures s[2 + |rr|..2 + |rr| + |domain|] == domain
    ensures s[2 + |rr| + |domain|..4 + |rr| + |domain|] == ". "
    ensures s[4 + |rr| + |domain|..|s| - 1] == recordType
  {
    "[" + rr + "." + domain + ". " + recordType + "]"
  }

  /** Labels tell records apart as long as the RR is a single label (no '.')
      and the domain holds no ' '. A multi-label RR such as `www.dev` can
      collide: `[a.b.c. A]` is the label of both ("a", "b.c") and ("a.b", "c"). */
  lemma LabelInjective(rr1: string, domain1: string, type1: string,
                       rr2: string, domain2: string, type2: string)
    requires '.' !in rr1 && '.' !in rr2
    requires ' ' !in domain1 && ' ' !in domain2
    requires Label(rr1, domain1, type1) == Label(rr2, domain2, type2)
    ensures rr1 == rr2 && domain1 == domain2 && type1 == type2
  {
    FirstSpaceEndsDomain(rr1, domain1, type1);
    FirstSpaceEndsDomain(rr2, domain2, type2);
  }

  /** In a label, the first ' ' after the RR and its '.' is the one that
      follows the domain and its '.'. */
  lemma FirstSpaceEndsDomain(rr: string, domain: string, recordType: string)
    requires ' ' !in domain
    ensures var s := Label(rr, domain, recordType);
      (forall k :: 2 + |rr| <= k < 3 + |rr| + |domain| ==> s[k] != ' ') && s[3 + |rr| + |domain|] == ' '
  {
  }

  /** One record of the configuration list. Its key (rr, domain, type) is
      never reassigned; `success` and `result` are written by the run. */
  class ResourceRecord {
    const rr: string
    const domain: string
    const recordType: string
    var success: bool
    var result: Option<string>

    constructor (rr: string, domain: string, recordType: string)
      ensures this.rr == rr && this.domain == domain && this.recordType == recordType
      ensures !success && result == None
    {
      this.rr := rr;
      this.domain := domain;
      this.recordType := recordType;
      success := false;
      result := None;
    }

    /** `str(record)`, used when an error is logged: the label of this
        record's own fields. `Label` is the same text over plain values, so
        that lemmas can speak of labels without a record on the heap. */
    function ToString(): (s: string)
      ensures s == Label(rr, domain, recordType)
      ensures s[1..1 + |rr|] == rr && s[4 + |rr| + |domain|..|s| - 1] == recordType
    {
      Label(rr, domain, recordType)
    }
  }
}
