/** The client that the controller holds: requests, clock and random source as mutable state. */
module Client {
  import opened Text
  import opened Types
  import opened Password
  import opened Cluster
  import opened Secrets

  class Client {
    const setting: Setting
    var actor: Key
    var store: Store
    var next: nat
    var clock: nat
    var slept: nat
    var draws: nat
    ghost var log: seq<Event>

    constructor (setting: Setting, actor: Key, store: Store, next: nat)
      ensures View() == World(setting, actor, store, next, 0, 0, 0, [])
    {
      this.setting := setting;
      this.actor, this.store, this.next := actor, store, next;
      clock, slept, draws, log := 0, 0, 0, [];
    }

    ghost function View(): World
      reads this
    {
      World(setting, actor, store, next, clock, slept, draws, log)
    }

    method Serve(who: Option<Key>, op: Op, grant: Grant, heard: bool) returns (reply: Reply)
      requires who.Some? ==> who.value == actor
      modifies `store, `next, `log
      ensures (View(), reply) == Perform(old(View()), who, op, grant, heard)
    {
      var served := Cluster.Serve(setting.defaults, grant, store, next, who, op);
      log := log + [Event(who, op, store, served.store, served.reply, heard)];
      store, next, reply := served.store, served.next, served.reply;
    }

    /** One call: other clients get their turn first; then the call is answered, refused, or its answer is lost. */
    method Do(op: Op) returns (reply: Reply)
      modifies `store, `next, `clock, `log
      ensures (View(), reply) == Call(old(View()), op)
    {
      hide Perform, Linked;
      var turn := setting.env(clock, store);
      for i := 0 to |turn.others|
        invariant actor == old(actor) && clock == old(clock) && slept == old(slept) && draws == old(draws)
        invariant Others(View(), turn.others[i..], turn.grant) == Others(old(View()), turn.others, turn.grant)
      {
        assert turn.others[i..][0] == turn.others[i] && turn.others[i..][1..] == turn.others[i + 1..];
        var _ := Serve(None, turn.others[i], turn.grant, true);
      }
      clock := clock + 1;
      match turn.fault {
        case Answered => reply := Serve(Some(actor), op, turn.grant, true);
        case Refused =>
          log := log + [Event(Some(actor), op, store, store, Failed(Unavailable), true)];
          reply := Failed(Unavailable);
        case AnswerLost =>
          var _ := Serve(Some(actor), op, turn.grant, false);
          reply := Failed(Unavailable);
      }
    }

    method Sleep(seconds: nat)
      modifies `slept
      ensures View() == Cluster.Sleep(old(View()), seconds)
    {
      slept := slept + seconds;
    }

    /** generateSecurePassword(32). */
    method GeneratePassword() returns (password: Option<string>)
      modifies `draws
      ensures (View(), password) == Draw(old(View()))
    {
      var turn := draws;
      draws := draws + 1;
      if setting.randomFails(turn) {
        return None;
      }
      var b := new Octet[PASSWORD_LENGTH](i => setting.octet(turn, i));
      assert b[..] == RandomBytes(old(View()));
      password := Some(Generate(b[..]));
    }
  }
}
