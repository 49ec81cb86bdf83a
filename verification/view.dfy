/** What the browser scripts share: a badge is a CSS class chosen by a
    `switch` on a value, shown with the value's first letter upper-cased,
    as `<span class="... <cls>"><text></span>`. */
module View {
  datatype Badge = Badge(cls: string, text: string)
}
