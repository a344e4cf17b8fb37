/**
 * The client hook that mirrors the browser-stored conversion history into
 * component state (`conversions`, `loading`). Whether a user is signed in is
 * the `signedIn` field, set by the user effect. A write to browser storage
 * that throws (for instance when the storage quota is exhausted) is the
 * `writeFails` parameter of `SaveConversion`.
 */
module ConversionsHook {
  import opened Common
  import opened LocalStorage

  datatype SaveOutcome =
    | NotSignedIn       // `if (!user) return;`
    | Saved(id: string) // the id `saveConversionToLocalStorage` returned
    | Threw             // the storage write threw and the error is re-thrown

  class ConversionsState {
    const store: BrowserStorage
    var signedIn: bool
    var conversions: seq<ConversionRecord>
    var loading: bool

    constructor (store: BrowserStorage)
      ensures this.store == store
      ensures !signedIn && conversions == [] && !loading
    {
      this.store := store;
      signedIn := false;
      conversions := [];
      loading := false;
    }

    /** The effect that runs when the user changes: load the stored history, or reset to []. */
    method UserChanged(user: bool)
      modifies this
      ensures signedIn == user
      ensures conversions == if user then store.GetHistory() else []
      ensures loading == old(loading)
    {
      signedIn := user;
      if user {
        conversions := store.GetHistory();
      } else {
        conversions := [];
      }
    }

    /** `saveConversion`: no-op when signed out; otherwise save, then reload the list. */
    method SaveConversion(c: ConversionInput, now: nat, writeFails: bool) returns (outcome: SaveOutcome)
      modifies this, store
      ensures !old(signedIn) ==> outcome == NotSignedIn && store.items == old(store.items)
                                 && conversions == old(conversions) && loading == old(loading)
      ensures old(signedIn) && writeFails ==> outcome == Threw && store.items == old(store.items)
                                              && conversions == old(conversions) && !loading
      ensures old(signedIn) && !writeFails ==>
                outcome == Saved(NatToString(now)) && !loading
                && conversions == store.GetHistory()
                && store.GetHistory() == PushCapped(
                     ConversionRecord(NatToString(now), c.kind, c.fromUnit, c.toUnit,
                                      c.fromValue, c.toValue, c.exchangeRate, now),
                     old(store.GetHistory()))
      ensures |conversions| <= HistoryLimit || conversions == old(conversions)
      ensures signedIn == old(signedIn)
    {
      if !signedIn {
        return NotSignedIn;
      }
      loading := true;
      if writeFails {
        outcome := Threw;
      } else {
        var id := store.SaveConversion(c, now);
        conversions := store.GetHistory();
        outcome := Saved(id);
      }
      loading := false;
    }

    /** `clearConversionHistory`: no-op when signed out; otherwise empty both storage and list. */
    method ClearConversionHistory()
      modifies this, store
      ensures !old(signedIn) ==> store.items == old(store.items) && conversions == old(conversions)
                                 && loading == old(loading)
      ensures old(signedIn) ==> store.GetHistory() == [] && conversions == [] && !loading
                                && store.items == old(store.items) - {HistoryKey}
      ensures signedIn == old(signedIn)
    {
      if !signedIn {
        return;
      }
      loading := true;
      store.ClearHistory();
      conversions := [];
      loading := false;
    }
  }
}
