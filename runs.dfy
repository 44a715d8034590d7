/** Sequences of updates, handled one at a time: users do not affect each
    other, and every `wall.post` call is paid for by a stored draft or by
    an earlier attempt whose answer raised. */
module Runs {
  import opened Common
  import opened Texts
  import opened Dispatch
  import opened Session

  /** One inbound update: its sender, its content, and what `wall.post`
      answers if the update makes that call. */
  datatype Delivery = Delivery(user: UserId, event: Event, vk: VkResponse)

  /** The state after handling `ds` in order, starting from `s`. */
  function Run(s: State, ds: seq<Delivery>): State
    decreases |ds|
  {
    if ds == [] then s
    else Run(Step(s, ds[0].user, ds[0].event, ds[0].vk).state, ds[1..])
  }

  /** The updates sent by `u`, in order. */
  function ByUser(ds: seq<Delivery>, u: UserId): (r: seq<Delivery>)
    ensures |r| <= |ds|
    ensures forall i :: 0 <= i < |r| ==> r[i].user == u
  {
    if ds == [] then []
    else if ds[0].user == u then [ds[0]] + ByUser(ds[1..], u)
    else ByUser(ds[1..], u)
  }

  /** How many `wall.post` calls handling `ds` makes for `u`'s drafts. */
  function PostCount(s: State, ds: seq<Delivery>, u: UserId): nat
    decreases |ds|
  {
    if ds == [] then 0
    else
      var o := Step(s, ds[0].user, ds[0].event, ds[0].vk);
      (if ds[0].user == u && o.posted.Some? then 1 else 0) + PostCount(o.state, ds[1..], u)
  }

  /** How many plain-text messages `u` sends in `ds`. */
  function TextCount(ds: seq<Delivery>, u: UserId): nat
  {
    if ds == [] then 0
    else (if ds[0].user == u && ds[0].event.Text? then 1 else 0) + TextCount(ds[1..], u)
  }

  /** How many confirm presses of `u` in `ds` come with an answer that raises. */
  function RaisedConfirmCount(ds: seq<Delivery>, u: UserId): nat
  {
    if ds == [] then 0
    else
      var d := ds[0];
      (if d.user == u && d.event == Callback(ConfirmToken) && PublishReport(d.vk).None? then 1 else 0)
      + RaisedConfirmCount(ds[1..], u)
  }

  function DraftBit(s: State, u: UserId): nat
  {
    if HasDraft(s, u) then 1 else 0
  }

  /** A run of `u`'s own updates acts on `u` only through what the state
      holds about `u`. */
  lemma {:induction false} RunDependsOnlyOnView(s: State, t: State, ds: seq<Delivery>, u: UserId)
    requires forall i :: 0 <= i < |ds| ==> ds[i].user == u
    requires View(s, u) == View(t, u)
    ensures View(Run(s, ds), u) == View(Run(t, ds), u)
    decreases |ds|
  {
    if ds != [] {
      var d := ds[0];
      StepLocal(s, t, u, d.event, d.vk);
      RunDependsOnlyOnView(Step(s, u, d.event, d.vk).state, Step(t, u, d.event, d.vk).state, ds[1..], u);
    }
  }

  /** Per-user isolation: what a run leaves for `u` is what `u`'s own
      updates alone would leave; other users' updates change nothing of it. */
  lemma {:induction false} RunIsolation(s: State, ds: seq<Delivery>, u: UserId)
    ensures View(Run(s, ds), u) == View(Run(s, ByUser(ds, u)), u)
    decreases |ds|
  {
    if ds != [] {
      var d := ds[0];
      var s1 := Step(s, d.user, d.event, d.vk).state;
      RunIsolation(s1, ds[1..], u);
      if d.user == u {
        assert ByUser(ds, u) == [d] + ByUser(ds[1..], u);
        assert ([d] + ByUser(ds[1..], u))[1..] == ByUser(ds[1..], u);
      } else {
        assert View(s1, u) == View(s, u);
        RunDependsOnlyOnView(s1, s, ByUser(ds[1..], u), u);
      }
    }
  }

  /** Every `wall.post` call for `u` consumes a draft that was present at
      the start or stored by one of `u`'s text messages, or repeats an
      attempt whose answer raised (which keeps the draft). */
  lemma {:induction false} PostBound(s: State, ds: seq<Delivery>, u: UserId)
    ensures PostCount(s, ds, u) + DraftBit(Run(s, ds), u)
            <= DraftBit(s, u) + TextCount(ds, u) + RaisedConfirmCount(ds, u)
    decreases |ds|
  {
    if ds != [] {
      var d := ds[0];
      var o := Step(s, d.user, d.event, d.vk);
      PostBound(o.state, ds[1..], u);
      if d.user == u && o.posted.Some? {
        assert Route(d.event) == CallbackHandler;
        assert HasDraft(s, u);
        if PublishReport(d.vk).Some? {
          assert !HasDraft(o.state, u);
        } else {
          assert o.state == s;
        }
      } else if !(d.user == u && d.event.Text?) {
        assert HasDraft(o.state, u) ==> HasDraft(s, u);
      }
    }
  }

  /** From a fresh process, a user's drafts reach `wall.post` at most once
      each, except where an earlier attempt raised. */
  lemma AtMostOncePublication(ds: seq<Delivery>, u: UserId)
    ensures PostCount(Initial, ds, u) <= TextCount(ds, u) + RaisedConfirmCount(ds, u)
  {
    PostBound(Initial, ds, u);
  }
}
