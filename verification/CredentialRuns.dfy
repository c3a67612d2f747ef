/**
 Credentials over whole runs, with faults anywhere: what is in a source secret is never overwritten, a
 latched target is never changed again, and its URL renders its own entries.
 */
module CredentialRuns {
  import opened Text
  import opened Types
  import opened Cluster
  import opened ClusterLaws
  import opened Retry
  import opened RetryLaws
  import opened Secrets
  import opened Credentials
  import opened Trace
  import opened Reconciler
  import opened Runs

  ghost function EntryIs(k: Key, name: string, value: string): Store -> bool {
    (s: Store) => k in s && name in Readable(s[k]) && Readable(s[k])[name] == value
  }

  /** The secret is latched and has at least these entries. */
  ghost function LatchedWith(k: Key, d: SecretData): Store -> bool {
    (s: Store) => k in s && Latched(Readable(s[k])) && forall name :: Keeps(d, Readable(s[k]), name)
  }

  ghost function ConsistentAt(k: Key): Store -> bool {
    (s: Store) => k in s ==> Consistent(Readable(s[k]))
  }

  lemma StandardKeepsEntry(scope: set<Key>, e: Event, k: Key, name: string, value: string)
    requires Standard(scope, e) && k.kind == SecretKind && !IsTargetEntry(name)
    ensures Preserves(EntryIs(k, name, value))(e)
  {
    hide Consistent, KeepsAddress, Readable;
    if e.op.Update? && e.op.key == k && e.reply.Got? {
      assert Keeps(Readable(e.before[k]), Readable(e.reply.stored), name);
    }
  }

  lemma StandardKeepsLatched(scope: set<Key>, e: Event, k: Key, d: SecretData)
    requires Standard(scope, e) && k.kind == SecretKind
    ensures Preserves(LatchedWith(k, d))(e)
  {
    hide Consistent, KeepsAddress, Readable, IsTargetEntry;
    if e.op.Update? && e.op.key == k && e.reply.Got? && Latched(Readable(e.before[k])) {
      var was, now := Readable(e.before[k]), Readable(e.reply.stored);
      assert Keeps(was, now, USERNAME) && Keeps(was, now, PASSWORD) && Keeps(was, now, URL);
      if LatchedWith(k, d)(e.before) {
        forall x
          ensures Keeps(d, now, x)
        {
          assert Keeps(d, was, x) && Keeps(was, now, x);
        }
      }
    }
  }

  lemma StandardKeepsConsistent(scope: set<Key>, e: Event, k: Key)
    requires Standard(scope, e) && k.kind == SecretKind
    ensures Preserves(ConsistentAt(k))(e)
  {
    hide Consistent, KeepsAddress, Readable, Keeps, IsTargetEntry;
  }

  /**
   Generated values are written once: whatever is in a source secret stays, over any run, while others
   leave it alone.
   */
  lemma {:induction false} SourceIsWriteOnce(w: World, cs: seq<Key>, k: Key, name: string, value: string)
    requires WellFormed(w) && EntryIs(k, name, value)(w.store) && !IsTargetEntry(name)
    requires k.kind == SecretKind && forall i :: 0 <= i < |cs| ==> cs[i].kind == CustomResource
    requires AllNew(w, Run(w, cs), Spared(k))
    ensures AllNew(w, Run(w, cs), Around(EntryIs(k, name, value))) && EntryIs(k, name, value)(Run(w, cs).store)
  {
    hide Run, Standard, Readable;
    forall scope, e | Standard(scope, e) && Spared(k)(e)
      ensures Preserves(EntryIs(k, name, value))(e)
    {
      StandardKeepsEntry(scope, e, k, name, value);
    }
    RunPreserves(w, cs, k, Spared(k), EntryIs(k, name, value));
  }

  /** Once latched, always latched, and no entry ever changes again. */
  lemma {:induction false} LatchIsForever(w: World, cs: seq<Key>, k: Key, d: SecretData)
    requires WellFormed(w) && LatchedWith(k, d)(w.store)
    requires k.kind == SecretKind && forall i :: 0 <= i < |cs| ==> cs[i].kind == CustomResource
    requires AllNew(w, Run(w, cs), Spared(k))
    ensures AllNew(w, Run(w, cs), Around(LatchedWith(k, d))) && LatchedWith(k, d)(Run(w, cs).store)
  {
    hide Run, Standard, Readable, Latched, Keeps;
    forall scope, e | Standard(scope, e) && Spared(k)(e)
      ensures Preserves(LatchedWith(k, d))(e)
    {
      StandardKeepsLatched(scope, e, k, d);
    }
    RunPreserves(w, cs, k, Spared(k), LatchedWith(k, d));
  }

  /** A latched secret's URL is the rendering of the secret's own entries, in every state of every run. */
  lemma {:induction false} UrlStaysOwn(w: World, cs: seq<Key>, k: Key)
    requires WellFormed(w) && ConsistentAt(k)(w.store)
    requires k.kind == SecretKind && forall i :: 0 <= i < |cs| ==> cs[i].kind == CustomResource
    requires AllNew(w, Run(w, cs), Spared(k))
    ensures AllNew(w, Run(w, cs), Around(ConsistentAt(k))) && ConsistentAt(k)(Run(w, cs).store)
  {
    hide Run, Standard, Readable, Consistent;
    forall scope, e | Standard(scope, e) && Spared(k)(e)
      ensures Preserves(ConsistentAt(k))(e)
    {
      StandardKeepsConsistent(scope, e, k);
    }
    RunPreserves(w, cs, k, Spared(k), ConsistentAt(k));
  }
}
