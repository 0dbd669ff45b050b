/** Expanding a mirror's message ids into full messages (lib/services/hydrateMessages.ts). */
module Hydrate {
  import opened Wrappers
  import opened Json
  import opened Ids
  import opened Seqs
  import opened Api
  import opened Records

  /** A message with its prompt and its AI response attached. */
  datatype Joined = Joined(id: string, message: MessageRec, prompt: PromptRec, ai: AiRec)

  /** The hydrated chat: the mirror's other fields, and the joined messages
      in place of the id list. */
  datatype HydratedChat = HydratedChat(rest: Obj, messages: seq<Joined>)

  /** The stored messages the id list names (`$match: { _id: { $in } }`),
      each once, in the order of the list. */
  function Matched(ids: seq<string>, messages: map<string, MessageRec>): (r: seq<string>)
    ensures NoDup(r)
    ensures forall x :: x in r <==> x in ids && x in messages
    decreases |ids|
  {
    if ids == [] then []
    else
      var p := Matched(ids[..|ids| - 1], messages);
      var x := ids[|ids| - 1];
      assert forall y :: y in ids <==> y in ids[..|ids| - 1] || y == x;
      if x in messages && x !in p then p + [x] else p
  }

  /** A message id with its creation time, the sort key. */
  datatype Keyed = Keyed(id: string, at: int)

  predicate AllStored(s: seq<Keyed>, messages: map<string, MessageRec>) {
    forall i :: 0 <= i < |s| ==> s[i].id in messages
  }

  function WithTimes(ids: seq<string>, messages: map<string, MessageRec>): (r: seq<Keyed>)
    requires forall x :: x in ids ==> x in messages
    ensures |r| == |ids| && AllStored(r, messages)
    ensures forall i :: 0 <= i < |ids| ==> r[i] == Keyed(ids[i], messages[ids[i]].createdAt)
  {
    seq(|ids|, i requires 0 <= i < |ids| => Keyed(ids[i], messages[ids[i]].createdAt))
  }

  predicate Sorted(s: seq<Keyed>) {
    forall i, j :: 0 <= i < j < |s| ==> s[i].at <= s[j].at
  }

  /** Inserts `x` before the first entry with a later time. */
  function Insert(x: Keyed, s: seq<Keyed>): seq<Keyed> {
    if s == [] then [x]
    else if x.at < s[0].at then [x] + s
    else [s[0]] + Insert(x, s[1..])
  }

  predicate AllAtLeast(s: seq<Keyed>, b: int) {
    forall i :: 0 <= i < |s| ==> b <= s[i].at
  }

  /** A list is sorted when its head is no later than the rest and the rest is sorted. */
  lemma SortedCons(a: Keyed, t: seq<Keyed>)
    ensures Sorted([a] + t) <==> AllAtLeast(t, a.at) && Sorted(t)
  {
    var r := [a] + t;
    if AllAtLeast(t, a.at) && Sorted(t) {
      forall i, j | 0 <= i < j < |r| ensures r[i].at <= r[j].at {
        assert r[j] == t[j - 1];
        if i > 0 { assert r[i] == t[i - 1]; }
      }
    }
    if Sorted(r) {
      forall i | 0 <= i < |t| ensures a.at <= t[i].at { assert r[0] == a && r[i + 1] == t[i]; }
      forall i, j | 0 <= i < j < |t| ensures t[i].at <= t[j].at { assert r[i + 1] == t[i] && r[j + 1] == t[j]; }
    }
  }

  /** Insertion adds exactly the new entry. */
  lemma {:induction false} InsertPermutes(x: Keyed, s: seq<Keyed>)
    ensures multiset(Insert(x, s)) == multiset(s) + multiset{x}
  {
    if s != [] && x.at >= s[0].at {
      InsertPermutes(x, s[1..]);
      assert s == [s[0]] + s[1..];
    }
  }

  /** Inserting an entry no earlier than a bound keeps every entry above it. */
  lemma {:induction false} InsertAtLeast(x: Keyed, s: seq<Keyed>, b: int)
    requires AllAtLeast(s, b) && b <= x.at
    ensures AllAtLeast(Insert(x, s), b)
  {
    if s != [] && x.at >= s[0].at {
      var tail := s[1..];
      assert AllAtLeast(tail, b) by {
        forall i | 0 <= i < |tail| ensures b <= tail[i].at { assert tail[i] == s[i + 1]; }
      }
      InsertAtLeast(x, tail, b);
      var t := Insert(x, tail);
      var r := [s[0]] + t;
      forall i | 0 <= i < |r| ensures b <= r[i].at { if i > 0 { assert r[i] == t[i - 1]; } }
    } else if s != [] {
      var r := [x] + s;
      forall i | 0 <= i < |r| ensures b <= r[i].at { if i > 0 { assert r[i] == s[i - 1]; } }
    }
  }

  /** Insertion keeps a sorted list sorted. */
  lemma {:induction false} InsertSorted(x: Keyed, s: seq<Keyed>)
    requires Sorted(s)
    ensures Sorted(Insert(x, s))
  {
    if s == [] {
    } else if x.at < s[0].at {
      SortedCons(s[0], s[1..]);
      assert s == [s[0]] + s[1..];
      assert AllAtLeast(s, x.at) by {
        forall i | 0 <= i < |s| ensures x.at <= s[i].at { if i > 0 { assert s[1..][i - 1] == s[i]; } }
      }
      SortedCons(x, s);
    } else {
      var tail := s[1..];
      assert s == [s[0]] + tail;
      SortedCons(s[0], tail);
      InsertSorted(x, tail);
      InsertAtLeast(x, tail, s[0].at);
      SortedCons(s[0], Insert(x, tail));
    }
  }

  /** Stable insertion sort by creation time (`$sort: { createdAt: 1 }`):
      entries with equal times keep their order. */
  function SortByTime(s: seq<Keyed>): seq<Keyed>
    decreases |s|
  {
    if s == [] then [] else Insert(s[|s| - 1], SortByTime(s[..|s| - 1]))
  }

  /** The sort returns a sorted permutation of its input. */
  lemma {:induction false} SortByTimeCorrect(s: seq<Keyed>)
    ensures multiset(SortByTime(s)) == multiset(s)
    ensures Sorted(SortByTime(s))
    decreases |s|
  {
    if s != [] {
      SortByTimeCorrect(s[..|s| - 1]);
      InsertPermutes(s[|s| - 1], SortByTime(s[..|s| - 1]));
      InsertSorted(s[|s| - 1], SortByTime(s[..|s| - 1]));
      assert s == s[..|s| - 1] + [s[|s| - 1]];
    }
  }

  /** Whether a message has both records the two inner joins need. */
  predicate Joinable(m: MessageRec, prompts: map<string, PromptRec>, ais: map<string, AiRec>) {
    m.prompt in prompts && m.aiResponse in ais
  }

  /** `$lookup` + `$unwind` on prompt and AI response: a message missing
      either record is dropped, the others keep their order. */
  function Join(s: seq<Keyed>, messages: map<string, MessageRec>, prompts: map<string, PromptRec>,
                ais: map<string, AiRec>): seq<Joined>
    requires AllStored(s, messages)
    decreases |s|
  {
    if s == [] then []
    else
      var m := messages[s[0].id];
      var rest := Join(s[1..], messages, prompts, ais);
      if Joinable(m, prompts, ais) then [Joined(s[0].id, m, prompts[m.prompt], ais[m.aiResponse])] + rest
      else rest
  }

  /** Each joined entry is the stored message with its own two records, and
      comes from the input. */
  lemma {:induction false} JoinSound(s: seq<Keyed>, messages: map<string, MessageRec>,
                                     prompts: map<string, PromptRec>, ais: map<string, AiRec>, j: Joined)
    requires AllStored(s, messages)
    requires j in Join(s, messages, prompts, ais)
    ensures j.id in messages && j.message == messages[j.id] && Joinable(j.message, prompts, ais)
    ensures j.prompt == prompts[j.message.prompt] && j.ai == ais[j.message.aiResponse]
    ensures exists i :: 0 <= i < |s| && s[i].id == j.id
    decreases |s|
  {
    var m := messages[s[0].id];
    var rest := Join(s[1..], messages, prompts, ais);
    if !(Joinable(m, prompts, ais) && j == Joined(s[0].id, m, prompts[m.prompt], ais[m.aiResponse])) {
      assert j in rest;
      JoinSound(s[1..], messages, prompts, ais, j);
      var i :| 0 <= i < |s[1..]| && s[1..][i].id == j.id;
      assert s[i + 1].id == j.id;
    }
  }

  predicate JoinedSorted(r: seq<Joined>) {
    forall i, k :: 0 <= i < k < |r| ==> r[i].message.createdAt <= r[k].message.createdAt
  }

  predicate TimesMatch(s: seq<Keyed>, messages: map<string, MessageRec>) {
    forall i :: 0 <= i < |s| ==> s[i].id in messages && s[i].at == messages[s[i].id].createdAt
  }

  /** Entries of a list above a bound are joined above it. */
  lemma {:induction false} JoinAtLeast(s: seq<Keyed>, messages: map<string, MessageRec>,
                                       prompts: map<string, PromptRec>, ais: map<string, AiRec>, b: int)
    requires TimesMatch(s, messages) && AllAtLeast(s, b)
    ensures forall k :: 0 <= k < |Join(s, messages, prompts, ais)| ==>
              b <= Join(s, messages, prompts, ais)[k].message.createdAt
    decreases |s|
  {
    if s != [] {
      var tail := s[1..];
      assert TimesMatch(tail, messages) && AllAtLeast(tail, b) by {
        forall i | 0 <= i < |tail| ensures tail[i] == s[i + 1] {}
      }
      JoinAtLeast(tail, messages, prompts, ais, b);
      var rest := Join(tail, messages, prompts, ais);
      var r := Join(s, messages, prompts, ais);
      forall k | 0 <= k < |r| ensures b <= r[k].message.createdAt {
        if r != rest && k > 0 { assert r[k] == rest[k - 1]; }
      }
    }
  }

  /** Joining a sorted list gives messages sorted by creation time. */
  lemma {:induction false} JoinSorted(s: seq<Keyed>, messages: map<string, MessageRec>,
                                      prompts: map<string, PromptRec>, ais: map<string, AiRec>)
    requires TimesMatch(s, messages) && Sorted(s)
    ensures JoinedSorted(Join(s, messages, prompts, ais))
    decreases |s|
  {
    if s != [] {
      var tail := s[1..];
      assert s == [s[0]] + tail;
      SortedCons(s[0], tail);
      assert TimesMatch(tail, messages) by {
        forall i | 0 <= i < |tail| ensures tail[i] == s[i + 1] {}
      }
      JoinSorted(tail, messages, prompts, ais);
      JoinAtLeast(tail, messages, prompts, ais, s[0].at);
      var rest := Join(tail, messages, prompts, ais);
      var r := Join(s, messages, prompts, ais);
      if r != rest {
        forall i, k | 0 <= i < k < |r| ensures r[i].message.createdAt <= r[k].message.createdAt {
          assert r[k] == rest[k - 1];
          if i > 0 { assert r[i] == rest[i - 1]; }
        }
      }
    }
  }

  /** Every input entry whose message has both records is joined. */
  lemma {:induction false} JoinComplete(s: seq<Keyed>, messages: map<string, MessageRec>,
                                        prompts: map<string, PromptRec>, ais: map<string, AiRec>, x: string)
    requires AllStored(s, messages)
    requires x in messages && Joinable(messages[x], prompts, ais)
    requires exists i :: 0 <= i < |s| && s[i].id == x
    ensures exists j :: j in Join(s, messages, prompts, ais) && j.id == x
    decreases |s|
  {
    if s[0].id != x {
      var i :| 0 <= i < |s| && s[i].id == x;
      assert s[1..][i - 1].id == x;
      JoinComplete(s[1..], messages, prompts, ais, x);
      var j :| j in Join(s[1..], messages, prompts, ais) && j.id == x;
      assert j in Join(s, messages, prompts, ais);
    } else {
      var m := messages[x];
      assert Joined(x, m, prompts[m.prompt], ais[m.aiResponse]) in Join(s, messages, prompts, ais);
    }
  }

  predicate AllIdValues(items: seq<Js>) {
    forall i :: 0 <= i < |items| ==> Cast(items[i]).Some?
  }

  /** `redisChat.messages.map(id => new Types.ObjectId(id))`. */
  function CanonIds(items: seq<Js>): (r: seq<string>)
    requires AllIdValues(items)
    ensures |r| == |items|
    ensures forall i :: 0 <= i < |items| ==> Cast(items[i]) == Some(r[i])
  {
    seq(|items|, i requires 0 <= i < |items| => Cast(items[i]).value)
  }

  /** The ids of the mirror, once its `messages` is an array of ids. */
  function MirrorIds(mirror: Obj): seq<string>
    requires IsArray(Field(mirror, "messages")) && AllIdValues(mirror["messages"].items)
  {
    CanonIds(mirror["messages"].items)
  }

  /** The messages the pipeline selects, sorted, before the joins. */
  function SortedMatches(mirror: Obj, messages: map<string, MessageRec>): (r: seq<Keyed>)
    requires IsArray(Field(mirror, "messages")) && AllIdValues(mirror["messages"].items)
    ensures AllStored(r, messages)
  {
    var s := SortByTime(WithTimes(Matched(MirrorIds(mirror), messages), messages));
    SortByTimeCorrect(WithTimes(Matched(MirrorIds(mirror), messages), messages));
    assert forall i :: 0 <= i < |s| ==> s[i] in multiset(s);
    s
  }

  /** `hydrateChat(redisChat)`. A `messages` that is not an array, or an entry
      that is not an id, throws. */
  function HydrateChat(mirror: Obj, messages: map<string, MessageRec>, prompts: map<string, PromptRec>,
                       ais: map<string, AiRec>): (r: Outcome<HydratedChat>)
    ensures r.Ok? <==> IsArray(Field(mirror, "messages")) && AllIdValues(mirror["messages"].items)
    ensures r.Ok? ==> r.value.rest == mirror - {"messages"}
  {
    var field := Field(mirror, "messages");
    if !IsArray(field) then Throws(TypeError)
    else if !AllIdValues(field.value.items) then Throws(BsonError)
    else Ok(HydratedChat(mirror - {"messages"}, Join(SortedMatches(mirror, messages), messages, prompts, ais)))
  }

  /** An entry of the timed list is one of the ids with its own time. */
  lemma InWithTimes(ids: seq<string>, messages: map<string, MessageRec>, e: Keyed)
    requires forall x :: x in ids ==> x in messages
    requires e in WithTimes(ids, messages)
    ensures e.id in ids && e.id in messages && e.at == messages[e.id].createdAt
  {
    var w := WithTimes(ids, messages);
    var k :| 0 <= k < |w| && w[k] == e;
    assert w[k] == Keyed(ids[k], messages[ids[k]].createdAt);
  }

  /** The sorted selection holds exactly the stored messages the mirror
      names, each with its own creation time, sorted by it. */
  lemma SortedMatchesCorrect(mirror: Obj, messages: map<string, MessageRec>)
    requires IsArray(Field(mirror, "messages")) && AllIdValues(mirror["messages"].items)
    ensures var s := SortedMatches(mirror, messages);
            TimesMatch(s, messages) && Sorted(s)
            && (forall i :: 0 <= i < |s| ==> s[i].id in MirrorIds(mirror))
            && (forall x :: x in MirrorIds(mirror) && x in messages ==> exists i :: 0 <= i < |s| && s[i].id == x)
  {
    var ids := MirrorIds(mirror);
    var m := Matched(ids, messages);
    var w := WithTimes(m, messages);
    var s := SortedMatches(mirror, messages);
    SortByTimeCorrect(w);
    assert multiset(s) == multiset(w);
    forall i | 0 <= i < |s| ensures s[i].id in ids && s[i].id in messages && s[i].at == messages[s[i].id].createdAt {
      assert s[i] in multiset(s);
      InWithTimes(m, messages, s[i]);
    }
    forall x | x in ids && x in messages ensures exists i :: 0 <= i < |s| && s[i].id == x {
      var k :| 0 <= k < |m| && m[k] == x;
      assert w[k] in multiset(w);
      assert w[k] in s;
    }
  }

  /** What `hydrateChat` returns: only messages the mirror names, each with
      its own prompt and AI response, sorted by creation time whatever the
      order of the ids; every named message that has both records is there. */
  lemma HydrateChatCorrect(mirror: Obj, messages: map<string, MessageRec>, prompts: map<string, PromptRec>,
                           ais: map<string, AiRec>)
    requires HydrateChat(mirror, messages, prompts, ais).Ok?
    ensures var ms := HydrateChat(mirror, messages, prompts, ais).value.messages;
            (forall j :: j in ms ==>
               j.id in MirrorIds(mirror) && j.id in messages && j.message == messages[j.id]
               && Joinable(j.message, prompts, ais) && j.prompt == prompts[j.message.prompt] && j.ai == ais[j.message.aiResponse])
            && JoinedSorted(ms)
            && (forall x :: x in MirrorIds(mirror) && x in messages && Joinable(messages[x], prompts, ais) ==>
                  exists j :: j in ms && j.id == x)
  {
    var s := SortedMatches(mirror, messages);
    SortedMatchesCorrect(mirror, messages);
    JoinSorted(s, messages, prompts, ais);
    var ms := Join(s, messages, prompts, ais);
    forall j | j in ms ensures j.id in MirrorIds(mirror) && j.id in messages && j.message == messages[j.id]
                            && Joinable(j.message, prompts, ais) && j.prompt == prompts[j.message.prompt] && j.ai == ais[j.message.aiResponse] {
      JoinSound(s, messages, prompts, ais, j);
    }
    forall x | x in MirrorIds(mirror) && x in messages && Joinable(messages[x], prompts, ais)
      ensures exists j :: j in ms && j.id == x {
      JoinComplete(s, messages, prompts, ais, x);
    }
  }
}
