/** `cogs.diary.cog`: the month `/zbeta_diary` asks for. */
module Diary {
  /** The command's choices: this month, last month, the month before. */
  const Offsets: set<int> := {0, -1, -2}

  /** The month `offset` months from `current`, wrapping into the previous
      year once. */
  function DiaryMonth(current: int, offset: int): (m: int)
    ensures offset == 0 && current >= 1 ==> m == current
    ensures 1 <= current <= 12 && -11 <= offset <= 0 ==> 1 <= m <= 12
    ensures m % 12 == (current + offset) % 12
    ensures m == current + offset || m == current + offset + 12
  {
    var month := current + offset;
    if month < 1 then month + 12 else month
  }

  /** Every choice of the command gives a month of the year. */
  lemma ChoicesGiveMonths(current: int, offset: int)
    requires 1 <= current <= 12 && offset in Offsets
    ensures 1 <= DiaryMonth(current, offset) <= 12
    ensures DiaryMonth(current, offset) == (if current + offset >= 1 then current + offset else current + offset + 12)
  {
  }
}
