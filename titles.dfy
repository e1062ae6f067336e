/** The title picker shared by the two staff dialogs: a stored title is
    shown as one of the standard titles, or as `Other` with the title in a
    free-text box, and `finalTitle` turns the picker back into a title. */
module Titles {

  const TITLES: seq<string> := ["Mr.", "Ms.", "Mrs.", "Dr.", "Prof.", "Miss"]

  const OTHER: string := "Other"

  /** The picker: the select's value (`formData.title`), the `isOtherTitle`
      flag and the `customTitle` text. */
  datatype TitleState = TitleState(displayTitle: string, isOther: bool, customTitle: string)

  /** The picker of a new form: nothing selected. */
  const EMPTY_TITLE: TitleState := TitleState("", false, "")

  predicate IsStandard(title: string) {
    title in TITLES
  }

  /** The edit dialog's picker for a stored title: a standard title is
      selected as itself; any other non-empty title selects `Other` and is
      copied into the custom text; the empty title selects nothing. */
  function TitleStateFor(title: string): (st: TitleState)
    ensures st.displayTitle in TITLES || st.displayTitle == OTHER || st.displayTitle == ""
    ensures st.isOther <==> st.displayTitle == OTHER
  {
    var displayTitle := if IsStandard(title) then title else if title != "" then OTHER else "";
    if !IsStandard(title) && title != "" then TitleState(displayTitle, true, title)
    else TitleState(displayTitle, false, "")
  }

  /** `isOtherTitle ? customTitle : formData.title`. */
  function FinalTitle(st: TitleState): string {
    if st.isOther then st.customTitle else st.displayTitle
  }

  /** The select's change handler. */
  function SelectTitle(st: TitleState, value: string): (r: TitleState)
    ensures r.displayTitle == value
    ensures r.isOther <==> value == OTHER
    ensures value == OTHER ==> r.customTitle == st.customTitle
    ensures value != OTHER ==> r.customTitle == ""
  {
    if value == OTHER then st.(displayTitle := OTHER, isOther := true)
    else TitleState(value, false, "")
  }

  /** Typing into the custom-title box. */
  function TypeCustomTitle(st: TitleState, text: string): (r: TitleState)
    ensures r.displayTitle == st.displayTitle && r.isOther == st.isOther && r.customTitle == text
  {
    st.(customTitle := text)
  }

  // ---------------------------------------------------------------------
  // Properties

  /** Opening a stored title and submitting it unchanged gives it back. */
  lemma TitleRoundTrip(title: string)
    ensures FinalTitle(TitleStateFor(title)) == title
  {
  }

  lemma StandardTitleShown(title: string)
    requires IsStandard(title)
    ensures TitleStateFor(title) == TitleState(title, false, "")
  {
  }

  lemma OtherTitleShown(title: string)
    requires !IsStandard(title) && title != ""
    ensures TitleStateFor(title) == TitleState(OTHER, true, title)
  {
  }

  lemma EmptyTitleShown()
    ensures TitleStateFor("") == EMPTY_TITLE
    ensures FinalTitle(EMPTY_TITLE) == ""
  {
    assert !IsStandard("");
  }

  /** Choosing a standard title submits exactly that title, whatever was
      chosen or typed before. */
  lemma SelectStandardGivesIt(st: TitleState, value: string)
    requires IsStandard(value)
    ensures FinalTitle(SelectTitle(st, value)) == value
    ensures !SelectTitle(st, value).isOther && SelectTitle(st, value).customTitle == ""
  {
    assert value != OTHER;
  }

  /** Choosing `Other` and typing a text submits the text. */
  lemma SelectOtherGivesTyped(st: TitleState, text: string)
    ensures FinalTitle(TypeCustomTitle(SelectTitle(st, OTHER), text)) == text
  {
  }
}
