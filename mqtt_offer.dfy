/**
 * How `publish_discovery` uses its set of discovered unique ids: each announcement is skipped
 * when its id is known, otherwise published, and its id is added only when the publish
 * succeeded. `Offer` is that rule over a sequence of announcements.
 */
module Discovery {
  import opened MqttRules

  /** The discovered ids and the client's log of sent messages. */
  datatype Published = Published(discovered: set<string>, log: seq<Message>)

  /** The publish goes through: the payload serialises and the client accepts the topic. */
  predicate Succeeds(refused: set<string>, encodable: Encoder, a: Announcement)
  {
    encodable(a.payload) && a.topic !in refused
  }

  /** One announcement: skipped when its id is known; published retained otherwise, with the id
      recorded only on success. */
  function Attempt(st: Published, refused: set<string>, encodable: Encoder, a: Announcement)
    : (r: Published)
    ensures r == st <==> a.uid in st.discovered || !Succeeds(refused, encodable, a)
    ensures r != st ==> r.discovered == st.discovered + {a.uid}
                        && r.log == st.log + [Message(a.topic, a.payload, true)]
  {
    if a.uid in st.discovered then st
    else if Succeeds(refused, encodable, a)
    then Published(st.discovered + {a.uid}, st.log + [Message(a.topic, a.payload, true)])
    else st
  }

  /** The announcements attempted in order. Offering only appends to the log and only adds to
      the set. */
  function Offer(st: Published, refused: set<string>, encodable: Encoder, cands: seq<Announcement>)
    : (r: Published)
    ensures st.discovered <= r.discovered
    ensures |st.log| <= |r.log| && r.log[..|st.log|] == st.log
    decreases |cands|
  {
    if cands == [] then st
    else Attempt(Offer(st, refused, encodable, cands[..|cands| - 1]), refused, encodable,
                 cands[|cands| - 1])
  }

  /** The ids whose announcement can succeed. */
  function SucceedingIds(refused: set<string>, encodable: Encoder, cands: seq<Announcement>)
    : set<string>
  {
    set c | c in cands && Succeeds(refused, encodable, c) :: c.uid
  }

  lemma {:induction false} OfferConcat(st: Published, refused: set<string>, encodable: Encoder,
                                       a: seq<Announcement>, b: seq<Announcement>)
    ensures Offer(st, refused, encodable, a + b) ==
      Offer(Offer(st, refused, encodable, a), refused, encodable, b)
    decreases |b|
  {
    if b == [] {
      assert a + b == a;
    } else {
      var init := b[..|b| - 1];
      assert (a + b)[..|a + b| - 1] == a + init;
      assert (a + b)[|a + b| - 1] == b[|b| - 1];
      OfferConcat(st, refused, encodable, a, init);
    }
  }

  /** The set afterwards is the set before plus every id whose announcement succeeds: it only
      grows, and a failed id stays out. */
  lemma {:induction false} OfferSet(st: Published, refused: set<string>, encodable: Encoder,
                                    cands: seq<Announcement>)
    ensures Offer(st, refused, encodable, cands).discovered ==
      st.discovered + SucceedingIds(refused, encodable, cands)
    decreases |cands|
  {
    if cands != [] {
      var init := cands[..|cands| - 1];
      var c := cands[|cands| - 1];
      OfferSet(st, refused, encodable, init);
      assert cands == init + [c];
      assert SucceedingIds(refused, encodable, cands) ==
        SucceedingIds(refused, encodable, init) +
        (if Succeeds(refused, encodable, c) then {c.uid} else {});
    }
  }

  /** Exactly one message is logged per newly discovered id. */
  lemma {:induction false} OfferCount(st: Published, refused: set<string>, encodable: Encoder,
                                      cands: seq<Announcement>)
    ensures var out := Offer(st, refused, encodable, cands);
      |out.log| - |st.log| == |out.discovered - st.discovered|
    decreases |cands|
  {
    if cands != [] {
      var c := cands[|cands| - 1];
      var mid := Offer(st, refused, encodable, cands[..|cands| - 1]);
      OfferCount(st, refused, encodable, cands[..|cands| - 1]);
      var out := Offer(st, refused, encodable, cands);
      if out != mid {
        assert out.discovered - st.discovered == (mid.discovered - st.discovered) + {c.uid};
        assert c.uid !in mid.discovered - st.discovered;
      }
    }
  }

  /** `m` is the retained config of a succeeding announcement whose id was not known in `st`. */
  predicate FreshConfig(st: Published, refused: set<string>, encodable: Encoder,
                        cands: seq<Announcement>, m: Message)
  {
    exists c :: c in cands && Succeeds(refused, encodable, c) && c.uid !in st.discovered
                && m == Message(c.topic, c.payload, true)
  }

  /** Every message logged is the config of an announcement whose id was new: an id already
      discovered is never published again. */
  lemma {:induction false} OfferOrigin(st: Published, refused: set<string>, encodable: Encoder,
                                       cands: seq<Announcement>)
    ensures var out := Offer(st, refused, encodable, cands);
      forall k :: |st.log| <= k < |out.log| ==> FreshConfig(st, refused, encodable, cands, out.log[k])
    decreases |cands|
  {
    if cands != [] {
      var init := cands[..|cands| - 1];
      var c := cands[|cands| - 1];
      var mid := Offer(st, refused, encodable, init);
      var out := Offer(st, refused, encodable, cands);
      OfferOrigin(st, refused, encodable, init);
      forall k | |st.log| <= k < |out.log|
        ensures FreshConfig(st, refused, encodable, cands, out.log[k])
      {
        if k < |mid.log| {
          assert out.log[k] == mid.log[k];
          assert |st.log| <= k < |Offer(st, refused, encodable, init).log|;
          var d :| d in init && Succeeds(refused, encodable, d) && d.uid !in st.discovered
                   && mid.log[k] == Message(d.topic, d.payload, true);
          assert d in cands;
        } else {
          assert out.log[k] == Message(c.topic, c.payload, true);
        }
      }
    }
  }

  /** Announcements whose ids are all known, or that cannot succeed, change nothing. */
  lemma {:induction false} OfferStable(st: Published, refused: set<string>, encodable: Encoder,
                                       cands: seq<Announcement>)
    requires forall c :: c in cands ==> c.uid in st.discovered || !Succeeds(refused, encodable, c)
    ensures Offer(st, refused, encodable, cands) == st
    decreases |cands|
  {
    if cands != [] {
      OfferStable(st, refused, encodable, cands[..|cands| - 1]);
    }
  }

  /** Offering the same announcements again, to a client that accepts the same topics, publishes
      nothing: what succeeded is known, and what failed fails again. */
  lemma OfferIdempotent(st: Published, refused: set<string>, encodable: Encoder,
                        cands: seq<Announcement>)
    ensures var once := Offer(st, refused, encodable, cands);
      Offer(once, refused, encodable, cands) == once
  {
    var once := Offer(st, refused, encodable, cands);
    OfferSet(st, refused, encodable, cands);
    OfferStable(once, refused, encodable, cands);
  }

  /** Once every announcement has gone through, offering them again publishes nothing, whatever
      topics the client accepts by then. */
  lemma RepeatAfterSuccess(st: Published, refused: set<string>, later: set<string>,
                           encodable: Encoder, cands: seq<Announcement>)
    requires forall c :: c in cands ==> Succeeds(refused, encodable, c)
    ensures var once := Offer(st, refused, encodable, cands);
      Offer(once, later, encodable, cands) == once
  {
    var once := Offer(st, refused, encodable, cands);
    OfferSet(st, refused, encodable, cands);
    OfferStable(once, later, encodable, cands);
  }

  /** An announcement that failed stays undiscovered and is offered again: once its topic is
      accepted, the next offer discovers it. */
  lemma RetryAfterFailure(st: Published, refused: set<string>, later: set<string>,
                          encodable: Encoder, cands: seq<Announcement>, c: Announcement)
    requires c in cands && c.uid !in st.discovered
    requires forall d :: d in cands && d.uid == c.uid ==> !Succeeds(refused, encodable, d)
    ensures c.uid !in Offer(st, refused, encodable, cands).discovered
    ensures Succeeds(later, encodable, c) ==>
      c.uid in Offer(Offer(st, refused, encodable, cands), later, encodable, cands).discovered
  {
    var once := Offer(st, refused, encodable, cands);
    OfferSet(st, refused, encodable, cands);
    OfferSet(once, later, encodable, cands);
  }
}
