/**
 * Topic-exchange routing as AMQP 0-9-1 defines it (section 3.1.3.3 of the AMQP 0-9-1
 * specification): a routing key is a list of words separated by dots, and a binding key
 * matches it word by word, where `*` stands for exactly one word and `#` for zero or more.
 *
 * One difference from RabbitMQ: here the empty key is one empty word, so `*` matches it,
 * while RabbitMQ reads it as zero words. The bindings `warehouse.*` and `shipment.*` match
 * the empty key in neither reading.
 */
module Topic {

  /** The words of a key: the pieces between the dots (a key without a dot is one word). */
  function Split(s: string): (ws: seq<string>)
    ensures |ws| >= 1
    ensures forall i :: 0 <= i < |ws| ==> '.' !in ws[i]
  {
    if |s| == 0 then [""]
    else
      var rest := Split(s[1..]);
      if s[0] == '.' then [""] + rest
      else [[s[0]] + rest[0]] + rest[1..]
  }

  /** The inverse of Split: the words put back together with dots between them. */
  function Join(ws: seq<string>): string
    requires |ws| >= 1
  {
    if |ws| == 1 then ws[0] else ws[0] + "." + Join(ws[1..])
  }

  lemma {:induction false} JoinSplit(s: string)
    ensures Join(Split(s)) == s
  {
    if |s| > 0 {
      JoinSplit(s[1..]);
      var rest := Split(s[1..]);
      if s[0] == '.' {
        assert ([""] + rest)[1..] == rest;
      } else {
        var ws := [[s[0]] + rest[0]] + rest[1..];
        if |rest| == 1 {
          assert Join(ws) == [s[0]] + rest[0];
        } else {
          assert ws[1..] == rest[1..];
          assert Join(rest) == rest[0] + "." + Join(rest[1..]);
        }
        assert s == [s[0]] + s[1..];
      }
    }
  }

  /** A word without a dot is a key of one word. */
  lemma {:induction false} SplitWord(w: string)
    requires '.' !in w
    ensures Split(w) == [w]
  {
    if |w| > 0 {
      assert '.' !in w[1..] by {
        forall i | 0 <= i < |w[1..]| ensures w[1..][i] != '.' { assert w[1..][i] == w[i + 1]; }
      }
      SplitWord(w[1..]);
      assert w == [w[0]] + w[1..];
    }
  }

  /** Putting one more word in front of a key adds exactly that word in front of its words. */
  lemma {:induction false} SplitCons(w: string, s: string)
    requires '.' !in w
    ensures Split(w + "." + s) == [w] + Split(s)
  {
    if |w| == 0 {
      assert w + "." + s == ['.'] + s;
      assert (['.'] + s)[1..] == s;
    } else {
      assert '.' !in w[1..] by {
        forall i | 0 <= i < |w[1..]| ensures w[1..][i] != '.' { assert w[1..][i] == w[i + 1]; }
      }
      SplitCons(w[1..], s);
      var t := w + "." + s;
      assert t[0] == w[0];
      assert t[1..] == w[1..] + "." + s;
      assert w == [w[0]] + w[1..];
    }
  }

  /** Does the list of binding words `p` match the list of routing words `k`? */
  function Matches(p: seq<string>, k: seq<string>): bool
    decreases |p| + |k|
  {
    if |p| == 0 then |k| == 0
    else if p[0] == "#" then Matches(p[1..], k) || (|k| > 0 && Matches(p, k[1..]))
    else |k| > 0 && (p[0] == "*" || p[0] == k[0]) && Matches(p[1..], k[1..])
  }

  /** Does binding key `pattern` select messages published with `routingKey`? */
  predicate KeyMatches(pattern: string, routingKey: string) {
    Matches(Split(pattern), Split(routingKey))
  }

  /** A binding of a queue to the exchange, with its binding key. */
  datatype Binding = Binding(queue: string, pattern: string)

  /** The queues a topic exchange with `bindings` delivers a message with `routingKey` to. */
  function Route(bindings: seq<Binding>, routingKey: string): (qs: set<string>)
    ensures forall b :: b in bindings && KeyMatches(b.pattern, routingKey) ==> b.queue in qs
    ensures forall q :: q in qs ==> exists b :: b in bindings && b.queue == q && KeyMatches(b.pattern, routingKey)
  {
    if |bindings| == 0 then {}
    else
      (if KeyMatches(bindings[0].pattern, routingKey) then {bindings[0].queue} else {})
      + Route(bindings[1..], routingKey)
  }

  /**
   * A binding key `prefix.*` (with a plain first word) matches exactly the routing keys of two
   * words whose first word is `prefix`: it matches `prefix.w` for every dot-free `w`, and any key
   * it matches has that form.
   */
  lemma StarBindingMatches(prefix: string, routingKey: string)
    requires '.' !in prefix && prefix != "#" && prefix != "*"
    ensures KeyMatches(prefix + ".*", routingKey) <==>
      |Split(routingKey)| == 2 && Split(routingKey)[0] == prefix
    ensures KeyMatches(prefix + ".*", routingKey) ==>
      routingKey == prefix + "." + Split(routingKey)[1] && '.' !in Split(routingKey)[1]
  {
    assert prefix + ".*" == prefix + "." + "*";
    var p := Split(prefix + ".*");
    SplitCons(prefix, "*");
    SplitWord("*");
    assert p == [prefix, "*"];
    var k := Split(routingKey);
    assert p[1..] == ["*"];
    assert Matches(p, k) <==> |k| > 0 && p[0] == k[0] && Matches(["*"], k[1..]);
    if |k| > 0 {
      assert ["*"][1..] == [];
      assert Matches(["*"], k[1..]) <==> |k[1..]| > 0 && Matches([], k[1..][1..]);
    }
    if |k| == 2 {
      JoinSplit(routingKey);
      assert Join(k) == k[0] + "." + Join(k[1..]);
      assert k[1..] == [k[1]];
    }
  }

  /** `prefix.w` for a dot-free `w` is matched by `prefix.*` and by no other `other.*`. */
  lemma StarBindingSelects(prefix: string, other: string, w: string)
    requires '.' !in prefix && prefix != "#" && prefix != "*"
    requires '.' !in other && other != "#" && other != "*"
    requires '.' !in w
    ensures KeyMatches(prefix + ".*", prefix + "." + w)
    ensures KeyMatches(other + ".*", prefix + "." + w) <==> other == prefix
  {
    SplitCons(prefix, w);
    SplitWord(w);
    StarBindingMatches(prefix, prefix + "." + w);
    StarBindingMatches(other, prefix + "." + w);
  }
}
