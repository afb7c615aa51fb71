/**
 * The end-of-level modal: what it announces, the target it reminds the player
 * of, which buttons it offers, and where its decorative stars sit. It holds no
 * state; everything is a function of its `isWinner` and `level` properties.
 */
module FactModal {
  import opened Scoring

  /** The buttons along the bottom of the modal, in display order */
  datatype Button = MainMenu | NextLevel

  /** The callback property a button invokes */
  datatype Callback = OnClose | OnNext

  /** Main Menu is always there; Next Level only after a win */
  function Buttons(isWinner: bool): (bs: seq<Button>)
    ensures |bs| >= 1 && bs[0] == MainMenu
    ensures NextLevel in bs <==> isWinner
    ensures forall i, j :: 0 <= i < j < |bs| ==> bs[i] != bs[j]
  {
    [MainMenu] + (if isWinner then [NextLevel] else [])
  }

  /** The callback behind each button */
  function Invokes(b: Button): (c: Callback)
    ensures c == OnNext <==> b == NextLevel
  {
    match b
    case MainMenu => OnClose
    case NextLevel => OnNext
  }

  /** The modal's heading */
  function Headline(isWinner: bool): (h: string)
    ensures h == "Level Complete!" <==> isWinner
    ensures h == "Level Failed" <==> !isWinner
  {
    if isWinner then "Level Complete!" else "Level Failed"
  }

  /** The "Target: ... points" figure */
  function Target(level: int): (t: int)
    ensures t == RequiredScore(level)
  {
    10 + (level - 1) * 10
  }

  /** The accuracy the modal says is required */
  function RequiredAccuracy(): (a: int)
    ensures a == MinAccuracy
  {
    60
  }

  /** The eight decorative stars, as (left, top) percentages */
  function DecorativeStars(): (ps: seq<(int, int)>)
    ensures |ps| == 8
    ensures forall i :: 0 <= i < |ps| ==> ps[i].0 == 10 + 10 * i
    ensures forall i :: 0 <= i < |ps| ==> ps[i].1 == 20 + (i % 3) * 20
    ensures forall i :: 0 <= i < |ps| ==> 10 <= ps[i].0 <= 80 && ps[i].1 in {20, 40, 60}
  {
    seq(8, i requires 0 <= i < 8 => (10 + i * 10, 20 + (i % 3) * 20))
  }
}
