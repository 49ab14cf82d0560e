/**
 * The five screens of the app, declared identically as a string union in
 * App.tsx and in frontend/src/app/page.tsx, and their order in the flow.
 */
module Screens {

  datatype Screen = Top | MachineSelection | ProfileInput | MenuProposal | WorkoutSession

  /** The position of a screen in the flow, from the top screen (0) to the session (4). */
  function Rank(s: Screen): (r: nat)
    ensures r <= 4
  {
    match s
    case Top => 0
    case MachineSelection => 1
    case ProfileInput => 2
    case MenuProposal => 3
    case WorkoutSession => 4
  }

  /**
   * The `switch` of `handleBack` in page.tsx: one screen back in the flow;
   * the top screen has no case and stays where it is.
   */
  function Previous(s: Screen): (r: Screen)
    ensures s == Top ==> r == Top
    ensures s != Top ==> Rank(r) + 1 == Rank(s)
  {
    match s
    case Top => Top
    case MachineSelection => Top
    case ProfileInput => MachineSelection
    case MenuProposal => ProfileInput
    case WorkoutSession => MenuProposal
  }

  /** Going back is never a way forward: from the session, four steps reach the top screen and stay there. */
  lemma PreviousReachesTop(s: Screen)
    ensures Previous(Previous(Previous(Previous(s)))) == Top
  {
  }
}
