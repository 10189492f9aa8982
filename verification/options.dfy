/** An optional value. In the SuperTrend line, None stands for a bar whose
    value was never assigned (backtrader leaves such a slot as NaN). */
module Options {

  datatype Option<+T> = None | Some(value: T)

}
