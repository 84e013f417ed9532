/** The steering and follow-up queues of an agent. */
module Queues {
  import opened Transcript

  /** What a drain takes: the oldest message, or all of them unless the mode is one at a time; never
      nothing when something waits. */
  function Taken(mode: string, items: seq<Message>): (taken: seq<Message>)
    ensures taken <= items && (taken == [] <==> items == [])
    ensures mode == "one-at-a-time" ==> |taken| <= 1
    ensures mode != "one-at-a-time" ==> taken == items
  {
    if items != [] && mode == "one-at-a-time" then [items[0]] else items
  }

  /** `mode` is a plain string: `Agent.steering_mode` assigns it without `set_mode`'s check. */
  class MessageQueue {
    var mode: string
    var items: seq<Message>
    ghost var pushed: seq<Message>   // every message ever pushed
    ghost var removed: seq<Message>  // every message that left, drained or cleared
    ghost var drained: seq<Message>  // every message a drain returned
    ghost var cleared: bool

    /** First in, first out: what left, followed by what waits, is what was pushed. */
    ghost predicate Valid()
      reads this
    {
      && pushed == removed + items
      && (!cleared ==> drained == removed)
    }

    constructor (mode: string)
      ensures Valid() && items == [] && pushed == [] && drained == [] && !cleared && this.mode == mode
    {
      this.mode, items := mode, [];
      pushed, removed, drained, cleared := [], [], [], false;
    }

    method Push(message: Message)
      requires Valid()
      modifies this
      ensures Valid() && items == old(items) + [message] && pushed == old(pushed) + [message]
      ensures drained == old(drained) && cleared == old(cleared) && mode == old(mode)
    {
      items := items + [message];
      pushed := pushed + [message];
    }

    method Drain() returns (taken: seq<Message>)
      requires Valid()
      modifies this
      ensures taken == Taken(old(mode), old(items)) && old(items) == taken + items
      ensures Valid() && drained == old(drained) + taken
      ensures pushed == old(pushed) && cleared == old(cleared) && mode == old(mode)
    {
      if items == [] {
        return [];
      }
      if mode == "one-at-a-time" {
        taken := [items[0]];
        items := items[1..];
      } else {
        taken := items;
        items := [];
      }
      removed := removed + taken;
      drained := drained + taken;
    }

    method Clear()
      requires Valid()
      modifies this
      ensures Valid() && items == [] && cleared
      ensures pushed == old(pushed) && drained == old(drained) && mode == old(mode)
    {
      removed := removed + items;
      items := [];
      cleared := true;
    }

    /** A mode other than the two is refused and changes nothing. */
    method SetMode(newMode: string) returns (accepted: bool)
      modifies this`mode
      ensures accepted == (newMode == "all" || newMode == "one-at-a-time")
      ensures mode == if accepted then newMode else old(mode)
    {
      accepted := newMode == "all" || newMode == "one-at-a-time";
      if accepted {
        mode := newMode;
      }
    }
  }
}
