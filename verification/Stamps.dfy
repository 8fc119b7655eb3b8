/** The creation times that an upload stamps its blocks with, and that its chunks carry. */
module Stamps {
  import opened Types
  import opened Placement
  import opened Pipeline

  /** Every block at work and every issued chunk of an upload was stamped between the seconds `begin` and `now`. */
  ghost predicate Dated(s: State, begin: int, now: int) {
    && begin <= now
    && (forall w :: 0 <= w < |s.crypto| && s.crypto[w].Slicing? ==> begin <= s.crypto[w].createdAt <= now)
    && (forall id :: id in s.issued ==> begin <= s.issued[id].createdAt <= now)
  }

  lemma StartIsDated(p: Params, s: State, a: Action, begin: int)
    requires Enabled(p, s, a) && a.StartBlock? && Dated(s, begin, a.createdAt)
    ensures Dated(Apply(p, s, a), begin, a.createdAt)
  {
    hide IsOrder, SealedOf;
  }

  lemma SliceIsDated(p: Params, s: State, a: Action, begin: int, now: int)
    requires Enabled(p, s, a) && a.SliceChunk? && Dated(s, begin, now)
    ensures Dated(Apply(p, s, a), begin, now)
  {
    hide IsOrder, SealedOf, NextChunk, Picked;
  }

  /** The step stamps no block and issues no chunk. */
  ghost predicate NothingStamped(s: State, s': State) {
    && s'.issued == s.issued && |s'.crypto| == |s.crypto|
    && forall w :: 0 <= w < |s'.crypto| && s'.crypto[w].Slicing? ==> s'.crypto[w] == s.crypto[w]
  }

  lemma BootStampsNothing(p: Params, s: State, a: Action)
    requires Enabled(p, s, a) && (a.Boot? || a.CryptoFails?)
    ensures NothingStamped(s, Apply(p, s, a))
  {
    hide Latched;
  }

  lemma RecordStampsNothing(p: Params, s: State, a: Action)
    requires Enabled(p, s, a) && (a.RecordBlock? || a.CryptoExit?)
    ensures NothingStamped(s, Apply(p, s, a))
  {
  }

  lemma MainStampsNothing(p: Params, s: State, a: Action)
    requires Enabled(p, s, a)
    requires a.ReadBlock? || a.PushBlock? || a.FinishReading? || a.ReadFails? || a.CloseUploads? || a.JoinUploads?
          || a.CheckErrors? || a.PublishManifest?
    ensures NothingStamped(s, Apply(p, s, a))
  {
    hide RollbackOf;
  }

  lemma UploadStampsNothing(p: Params, s: State, a: Action)
    requires Enabled(p, s, a) && (a.TakeJob? || a.SkipJob? || a.TrySave? || a.GiveUp? || a.UploadExit?)
    ensures NothingStamped(s, Apply(p, s, a))
  {
    hide RecordOf, Latched;
  }

  lemma RestStampsNothing(p: Params, s: State, a: Action)
    requires Enabled(p, s, a) && !a.SliceChunk? && !a.StartBlock?
    ensures NothingStamped(s, Apply(p, s, a))
  {
    hide Apply, Enabled, NothingStamped;
    match a {
      case Boot(_) | CryptoFails(_) => BootStampsNothing(p, s, a);
      case RecordBlock(_) | CryptoExit(_) => RecordStampsNothing(p, s, a);
      case TakeJob(_) | SkipJob(_) | TrySave(_, _, _, _) | GiveUp(_) | UploadExit(_) => UploadStampsNothing(p, s, a);
      case ReadBlock | PushBlock | FinishReading | ReadFails | CloseUploads | JoinUploads | CheckErrors | PublishManifest(_, _) =>
        MainStampsNothing(p, s, a);
    }
  }

  lemma PipelineDates(p: Params, s: State, a: Action, begin: int, now: int)
    requires Enabled(p, s, a) && Dated(s, begin, now) && (a.StartBlock? ==> a.createdAt == now)
    ensures Dated(Apply(p, s, a), begin, now)
  {
    if a.StartBlock? {
      StartIsDated(p, s, a, begin);
    } else if a.SliceChunk? {
      SliceIsDated(p, s, a, begin, now);
    } else {
      RestStampsNothing(p, s, a);
      hide Apply, Enabled;
    }
  }

  lemma LaterIsDated(s: State, begin: int, now: nat, later: nat)
    requires Dated(s, begin, Unix(now)) && now <= later
    ensures Dated(s, begin, Unix(later))
  {
  }
}
