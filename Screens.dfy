/**
 * The three-screen flow of `PensionSimulator` and the meme carousel of
 * `MemeScreen`.
 */
module Screens {
  import opened Wallet

  datatype Screen = Landing | Meme | Simulator

  /** The two answers offered on the landing screen. */
  datatype Answer = Yes | No

  /** The number of memes the carousel cycles through. */
  const MemeCount: nat := 3

  /** `handleLandingAnswer`: "yes" opens the simulator, "no" the meme screen. */
  function ScreenFor(answer: Answer): (s: Screen)
    ensures s != Landing
    ensures s == Simulator <==> answer.Yes?
    ensures s == Meme <==> answer.No?
  {
    match answer
    case Yes => Simulator
    case No => Meme
  }

  /** One carousel tick, `(prev + 1) % memes.length`: the next meme, wrapping after the last. */
  function NextMeme(prev: nat): (r: nat)
    ensures r < MemeCount
    ensures prev + 1 < MemeCount ==> r == prev + 1
    ensures prev + 1 == MemeCount ==> r == 0
  {
    (prev + 1) % MemeCount
  }

  /** The meme showing after `ticks` ticks of the carousel, starting from the first. */
  function MemeAfter(ticks: nat): nat {
    if ticks == 0 then 0 else NextMeme(MemeAfter(ticks - 1))
  }

  /** After `ticks` ticks the carousel shows meme `ticks % 3`: it cycles with period three. */
  lemma {:induction false} MemeAfterCycles(ticks: nat)
    ensures MemeAfter(ticks) == ticks % MemeCount
  {
    if ticks > 0 {
      MemeAfterCycles(ticks - 1);
    }
  }

  /** Any three consecutive ticks show all three memes. */
  lemma EveryMemeShown(ticks: nat, meme: nat)
    requires meme < MemeCount
    ensures exists k :: ticks <= k < ticks + MemeCount && MemeAfter(k) == meme
  {
    var k := ticks + (meme + MemeCount - ticks % MemeCount) % MemeCount;
    MemeAfterCycles(k);
  }

  /** The top-level component: the current screen and the wallet session it owns. */
  class PensionSimulator {
    var screen: Screen
    const wallet: WalletSession

    ghost predicate Valid()
      reads this, wallet
    {
      wallet.Valid()
    }

    constructor ()
      ensures Valid() && fresh(wallet)
      ensures screen == Landing && wallet.state == Disconnected && wallet.tokens == []
    {
      screen := Landing;
      wallet := new WalletSession();
    }

    /** `handleLandingAnswer`: move on from the landing screen; the wallet is not touched. */
    method HandleLandingAnswer(answer: Answer)
      modifies this`screen
      ensures screen == ScreenFor(answer)
    {
      screen := if answer.Yes? then Simulator else Meme;
    }

    /** `handleBackToLanding`: back to the landing screen, disconnecting the wallet on the way. */
    method HandleBackToLanding()
      requires Valid()
      modifies this`screen, wallet
      ensures Valid()
      ensures screen == Landing
      ensures wallet.state == Disconnected && wallet.tokens == []
      ensures wallet.loadingTokens == old(wallet.loadingTokens)
    {
      screen := Landing;
      wallet.Disconnect();
    }
  }
}
