/**
 The identifier under which the aggregator has a batch verification monitored, and how
 its result handler reads the two batch numbers back.
 */
module MonitoredId {
  import opened Wrappers
  import opened Decimal

  function Build(batchNumber: nat, batchNumberFinal: nat): string {
    "proof-from-" + ToString(batchNumber) + "-to-" + ToString(batchNumberFinal)
  }

  // strings.Split(s, "-")
  function Split(s: string): (parts: seq<string>)
    ensures |parts| > 0
  {
    if s == "" then [""]
    else
      var rest := Split(s[1..]);
      if s[0] == '-' then [""] + rest else [[s[0]] + rest[0]] + rest[1..]
  }

  // The batch numbers the handler goes on with; `None` stands for the index panic of an
  // identifier with fewer than five parts.
  function Read(id: string): Option<(nat, nat)> {
    var parts := Split(id);
    if |parts| < 5 then None
    else Some((ParseUint(parts[2]).value, ParseUint(parts[4]).value))
  }

  lemma {:induction false} SplitFirst(a: string, rest: string)
    requires '-' !in a
    ensures Split(a + "-" + rest) == [a] + Split(rest)
  {
    var s := a + "-" + rest;
    if a == "" {
      assert s[1..] == rest;
    } else {
      assert s[0] == a[0] && s[1..] == a[1..] + "-" + rest;
      SplitFirst(a[1..], rest);
      assert [a[0]] + a[1..] == a;
      assert ([a[1..]] + Split(rest))[1..] == Split(rest);
    }
  }

  lemma {:induction false} SplitLast(a: string)
    requires '-' !in a
    ensures Split(a) == [a]
  {
    if a != "" {
      SplitLast(a[1..]);
      assert [a[0]] + a[1..] == a;
    }
  }

  lemma SplitTwo(a: string, b: string)
    requires '-' !in a && '-' !in b
    ensures Split(a + "-" + b) == [a, b]
  {
    SplitFirst(a, b);
    SplitLast(b);
  }

  lemma IdIsJoined(s: string, t: string)
    ensures "proof-from-" + s + "-to-" + t == "proof" + "-" + ("from" + "-" + (s + "-" + ("to" + "-" + t)))
  {
  }

  lemma SplitId(s: string, t: string)
    requires '-' !in s && '-' !in t
    ensures Split("proof-from-" + s + "-to-" + t) == ["proof", "from", s, "to", t]
  {
    IdIsJoined(s, t);
    SplitTwo("to", t);
    SplitFirst(s, "to" + "-" + t);
    SplitFirst("from", s + "-" + ("to" + "-" + t));
    SplitFirst("proof", "from" + "-" + (s + "-" + ("to" + "-" + t)));
  }

  // Every pair of uint64 batch numbers is read back.
  lemma ReadBack(a: nat, b: nat)
    requires a < U64 && b < U64
    ensures Split(Build(a, b)) == ["proof", "from", ToString(a), "to", ToString(b)]
    ensures Read(Build(a, b)) == Some((a, b))
  {
    SplitId(ToString(a), ToString(b));
    ParseReadsBack(a);
    ParseReadsBack(b);
  }
}
