/**
 * The log view: the case-insensitive search over the message log, the
 * "shown/total" badge, the empty-view text and the auto-scroll rule.
 */
module TerminalLog {
  import opened Wrappers
  import opened Seqs
  import opened Text
  import opened Types

  /**
   * `m` is kept by the lowercased filter `lower`: its lowercased content or
   * lowercased type tag contains it. The empty filter keeps every message,
   * and the lowercased tag of a message's own type keeps it.
   */
  predicate Matches(m: WSMessage, lower: string)
    ensures lower == [] ==> Matches(m, lower)
    ensures lower == ToLower(Tag(m.kind)) ==> Matches(m, lower)
  {
    IncludesSelf(ToLower(Tag(m.kind)));
    Includes(ToLower(m.content), lower) || Includes(ToLower(Tag(m.kind)), lower)
  }

  /** `filteredMessages`: the whole log for an empty filter, otherwise the matching messages in log order. */
  function FilteredMessages(messages: seq<WSMessage>, filterText: string): (r: seq<WSMessage>)
    ensures filterText == "" ==> r == messages
    ensures |r| <= |messages|
    ensures filterText != "" ==> forall k :: 0 <= k < |messages| ==>
              (messages[k] in r <==> Matches(messages[k], ToLower(filterText)))
    ensures forall i :: 0 <= i < |r| ==> r[i] in messages
  {
    if filterText == "" then messages
    else
      var lower := ToLower(filterText);
      var r := Filter(messages, m => Matches(m, lower));
      assert forall k :: 0 <= k < |messages| && messages[k] in r ==> Matches(messages[k], lower) by {
        forall k | 0 <= k < |messages| && messages[k] in r
          ensures Matches(messages[k], lower)
        {
          var i :| 0 <= i < |r| && r[i] == messages[k];
        }
      }
      r
  }

  /** The identity positions `0, 1, ..., n-1`. */
  function Positions(n: nat): (ps: seq<nat>)
    ensures |ps| == n && Increasing(ps, n)
    ensures forall i :: 0 <= i < n ==> ps[i] == i
  {
    seq(n, i requires 0 <= i < n => i)
  }

  /**
   * The view is an order-preserving subsequence of the log: message `i` of
   * the view is the log's message at position `ps[i]`, the positions strictly
   * increase, and every matching message of the log has its position there.
   */
  lemma FilteredIsSubsequence(messages: seq<WSMessage>, filterText: string)
    ensures var r := FilteredMessages(messages, filterText);
            exists ps: seq<nat> ::
              && |ps| == |r| && Increasing(ps, |messages|)
              && (forall i :: 0 <= i < |ps| ==> r[i] == messages[ps[i]])
              && (forall k :: 0 <= k < |messages| && (filterText == "" || Matches(messages[k], ToLower(filterText))) ==> k in ps)
  {
    var r := FilteredMessages(messages, filterText);
    if filterText == "" {
      var ps := Positions(|messages|);
      forall k | 0 <= k < |messages|
        ensures k in ps
      {
        assert ps[k] == k;
      }
      assert forall i :: 0 <= i < |ps| ==> r[i] == messages[ps[i]];
    } else {
      var lower := ToLower(filterText);
      var p := (m: WSMessage) => Matches(m, lower);
      FilterKeepsOrder(messages, p);
      var ps := Kept(messages, p);
      assert forall i :: 0 <= i < |ps| ==> r[i] == messages[ps[i]];
    }
  }

  /**
   * Searching for a type's tag, in any letter case (any query that lowercases
   * to the lowercased tag), finds every message of that type.
   */
  lemma TagSearchFindsKind(messages: seq<WSMessage>, k: MessageType, query: string)
    requires ToLower(query) == ToLower(Tag(k))
    ensures forall i :: 0 <= i < |messages| && messages[i].kind == k ==>
              messages[i] in FilteredMessages(messages, query)
  {
    IncludesSelf(ToLower(Tag(k)));
  }

  /** The "shown/total" badge, present only when the log is not empty. */
  function Badge(messages: seq<WSMessage>, filterText: string): (r: Option<(nat, nat)>)
    ensures r.Some? <==> messages != []
    ensures r.Some? ==> r.value.0 <= r.value.1 == |messages|
    ensures r.Some? && filterText == "" ==> r.value.0 == r.value.1
  {
    if messages == [] then None
    else Some((|FilteredMessages(messages, filterText)|, |messages|))
  }

  /** What the empty view says. */
  datatype EmptyText = NoLogs | NoMatches

  /** The empty view: shown when nothing is listed, saying why. */
  function EmptyView(messages: seq<WSMessage>, filterText: string): (r: Option<EmptyText>)
    ensures r.Some? <==> FilteredMessages(messages, filterText) == []
    ensures r == Some(NoLogs) <==> messages == []
  {
    if FilteredMessages(messages, filterText) == [] then
      Some(if messages == [] then NoLogs else NoMatches)
    else None
  }

  /** "No matches" appears exactly when a non-empty filter hides every message of a non-empty log. */
  lemma NoMatchesOnlyWhenFiltered(messages: seq<WSMessage>, filterText: string)
    ensures EmptyView(messages, filterText) == Some(NoMatches) <==>
              && messages != [] && filterText != ""
              && forall k :: 0 <= k < |messages| ==> !Matches(messages[k], ToLower(filterText))
  {
    var r := FilteredMessages(messages, filterText);
    if messages != [] && filterText != "" && r != [] {
      assert r[0] in messages;
      var k :| 0 <= k < |messages| && messages[k] == r[0];
      assert Matches(messages[k], ToLower(filterText));
    }
  }

  /** How far the view is from its bottom, in pixels. */
  function DistanceToBottom(scrollTop: int, scrollHeight: int, clientHeight: int): int
  {
    scrollHeight - scrollTop - clientHeight
  }

  /**
   * `handleScroll`: auto-scroll is on at (or past) the bottom and off once
   * the view is more than 50 pixels above it.
   */
  function AutoScroll(scrollTop: int, scrollHeight: int, clientHeight: int): (r: bool)
    ensures scrollTop + clientHeight >= scrollHeight ==> r
    ensures scrollHeight - (scrollTop + clientHeight) > 50 ==> !r
  {
    !(DistanceToBottom(scrollTop, scrollHeight, clientHeight) > 50)
  }

  /**
   * Scrolled to the very bottom, auto-scroll is on; and whether it is on
   * depends only on the distance, turning off exactly past 50 pixels.
   */
  lemma AutoScrollThreshold(top: int, height: int, client: int, top2: int, height2: int, client2: int)
    ensures top + client == height ==> AutoScroll(top, height, client)
    ensures AutoScroll(top, height, client) <==> height - top - client <= 50
    ensures (DistanceToBottom(top2, height2, client2) <= DistanceToBottom(top, height, client) &&
             AutoScroll(top, height, client)) ==> AutoScroll(top2, height2, client2)
  {
  }
}
