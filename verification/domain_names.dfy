/**
 The base-zone name derivation of the OpenStack DNS authenticator: the zone
 looked up for a domain is the domain with its leftmost label removed, joined
 back with dots, and qualified with a trailing dot.
 The functions follow Python's `str.split('.')` and `'.'.join(...)` exactly,
 including their behaviour on the empty string and on empty labels.
 */
module DomainNames {

  /** Python's `s.split('.')`: never empty, and no piece contains a dot. */
  function Split(s: string): (labels: seq<string>)
    ensures |labels| >= 1
    ensures forall i :: 0 <= i < |labels| ==> '.' !in labels[i]
  {
    if s == [] then [[]]
    else
      var rest := Split(s[1..]);
      if s[0] == '.' then [[]] + rest
      else [[s[0]] + rest[0]] + rest[1..]
  }

  /** Python's `'.'.join(labels)`: the first label comes first, followed by a dot when there are more. */
  function Join(labels: seq<string>): (s: string)
    ensures |labels| >= 1 ==> labels[0] <= s
    ensures |labels| >= 2 ==> |labels[0]| < |s| && s[|labels[0]|] == '.'
  {
    if |labels| == 0 then []
    else if |labels| == 1 then labels[0]
    else labels[0] + "." + Join(labels[1..])
  }

  /**
   `'.'.join(domain.split('.')[1:])`: the domain without its leftmost label,
   which is empty for a domain without a dot.
   */
  function BaseDomain(domain: string): (base: string)
    ensures '.' !in domain ==> base == ""
  {
    SplitSingle(domain);
    Join(Split(domain)[1..])
  }

  /**
   The name handed to the provider's zone lookup: `BaseDomain(domain) + "."`,
   never empty and always dot-terminated. Its value as the text after the
   domain's first dot is `BaseDomainIsSuffixAfterFirstDot`.
   */
  function ZoneLookupName(domain: string): (name: string)
    ensures |name| >= 1 && name[|name| - 1] == '.'
  {
    BaseDomain(domain) + "."
  }

  /** Joining what was split gives back the original string. */
  lemma {:induction false} JoinSplit(s: string)
    ensures Join(Split(s)) == s
  {
    if s != [] {
      var rest := Split(s[1..]);
      JoinSplit(s[1..]);
      if s[0] == '.' {
        assert Split(s) == [[]] + rest;
        assert Split(s)[1..] == rest;
      } else if |rest| == 1 {
        assert Split(s) == [[s[0]] + rest[0]];
      } else {
        assert Split(s)[1..] == rest[1..];
        assert Join(rest) == rest[0] + "." + Join(rest[1..]);
      }
    }
  }

  /** A string splits into a single piece exactly when it holds no dot. */
  lemma {:induction false} SplitSingle(s: string)
    ensures |Split(s)| == 1 <==> '.' !in s
    ensures '.' !in s ==> Split(s) == [s]
  {
    JoinSplit(s);
    if s != [] {
      SplitSingle(s[1..]);
      if s[0] != '.' && '.' !in s {
        assert '.' !in s[1..] by {
          forall i | 0 <= i < |s[1..]| ensures s[1..][i] != '.' {
            assert s[1..][i] == s[i + 1];
          }
        }
        assert s == [s[0]] + s[1..];
      }
    }
  }

  /** Splitting a dot-free label, a dot and a rest yields the label followed by the rest's pieces. */
  lemma {:induction false} SplitAfterLabel(head: string, rest: string)
    requires '.' !in head
    ensures Split(head + "." + rest) == [head] + Split(rest)
  {
    if head == [] {
      assert head + "." + rest == ['.'] + rest;
      assert (['.'] + rest)[1..] == rest;
    } else {
      var s := head + "." + rest;
      assert s[1..] == head[1..] + "." + rest;
      assert '.' !in head[1..] by {
        forall i | 0 <= i < |head[1..]| ensures head[1..][i] != '.' {
          assert head[1..][i] == head[i + 1];
        }
      }
      SplitAfterLabel(head[1..], rest);
      assert s[0] == head[0] && s[0] != '.';
      assert [head[0]] + head[1..] == head;
    }
  }

  /** Splitting what was joined from dot-free labels gives back the labels. */
  lemma {:induction false} SplitJoin(labels: seq<string>)
    requires |labels| >= 1
    requires forall i :: 0 <= i < |labels| ==> '.' !in labels[i]
    ensures Split(Join(labels)) == labels
  {
    if |labels| == 1 {
      SplitSingle(labels[0]);
    } else {
      SplitJoin(labels[1..]);
      SplitAfterLabel(labels[0], Join(labels[1..]));
      assert [labels[0]] + labels[1..] == labels;
    }
  }

  /** For a domain with a dot, the first label, a dot and the base domain make up the domain again. */
  lemma BaseDomainAfterFirstLabel(domain: string)
    requires '.' in domain
    ensures |Split(domain)| >= 2
    ensures Split(domain)[0] + "." + BaseDomain(domain) == domain
  {
    SplitSingle(domain);
    JoinSplit(domain);
  }

  /**
   Reference definition: the base domain is everything after the domain's
   first dot, and the zone lookup name is that suffix plus a dot.
   */
  lemma BaseDomainIsSuffixAfterFirstDot(domain: string)
    requires '.' in domain
    ensures exists i :: (0 <= i < |domain| && domain[i] == '.' && '.' !in domain[..i] &&
                         BaseDomain(domain) == domain[i + 1..] &&
                         ZoneLookupName(domain) == domain[i + 1..] + ".")
  {
    BaseDomainAfterFirstLabel(domain);
    var first := Split(domain)[0];
    var i := |first|;
    assert domain[..i] == first;
    assert domain[i + 1..] == BaseDomain(domain);
  }

  /** Removing the leftmost label removes exactly one label and keeps the others in order. */
  lemma BaseDomainLabels(domain: string)
    requires '.' in domain
    ensures Split(BaseDomain(domain)) == Split(domain)[1..]
  {
    BaseDomainAfterFirstLabel(domain);
    SplitJoin(Split(domain)[1..]);
  }

  /** A domain without a dot is looked up as the root name ".". */
  lemma LookupNameWithoutDot(domain: string)
    requires '.' !in domain
    ensures BaseDomain(domain) == ""
    ensures ZoneLookupName(domain) == "."
  {
    SplitSingle(domain);
  }

  /** A three-label domain is looked up under its two rightmost labels. */
  lemma LookupNameThreeLabels()
    ensures ZoneLookupName("www.example.com") == "example.com."
  {
    var d := "www.example.com";
    assert d == "www" + "." + "example.com";
    SplitAfterLabel("www", "example.com");
    assert BaseDomain(d) == Join(Split("example.com"));
    JoinSplit("example.com");
  }

  /** A two-label domain is looked up under its top-level label. */
  lemma LookupNameTwoLabels()
    ensures ZoneLookupName("example.com") == "com."
  {
    var d := "example.com";
    assert d == "example" + "." + "com";
    SplitAfterLabel("example", "com");
    assert BaseDomain(d) == Join(Split("com"));
    JoinSplit("com");
  }
}
