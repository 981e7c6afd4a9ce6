/**
 * The category and brand select boxes: the option `all` stands for "no
 * filter", which their parent holds as the empty string. Both components
 * map values the same way.
 */
module SelectFilter {

  const AllOption := "all"

  /** `handleValueChange`: the value passed to `onChange` for a selected option. */
  function Reported(selected: string): (value: string)
    ensures selected == AllOption ==> value == ""
    ensures selected != AllOption ==> value == selected
  {
    if selected == AllOption then "" else selected
  }

  /** `value || "all"`: the option the select shows for the parent's value. */
  function Displayed(value: string): (option: string)
    ensures option != ""
    ensures value == "" ==> option == AllOption
    ensures value != "" ==> option == value
  {
    if value == "" then AllOption else value
  }

  /**
   * Showing a value and selecting the option shown gives the value back,
   * for every value except `all` itself, which comes back as no filter.
   */
  lemma ReportDisplayed(value: string)
    ensures value != AllOption ==> Reported(Displayed(value)) == value
    ensures value == AllOption ==> Reported(Displayed(value)) == ""
  {
  }

  /** Selecting an option and showing the result gives the option back, for every non-empty option. */
  lemma DisplayReported(selected: string)
    ensures selected != "" ==> Displayed(Reported(selected)) == selected
  {
  }
}
