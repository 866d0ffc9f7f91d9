/** The drawable resources the screens choose between when showing a device logo. */
module Drawables {

  datatype Drawable = Bedroom | Kitchen | LivingRoom | Bathroom | Add | QuestionMark

  /** The logo names a user can pick when adding a device, with their pictures,
      in the order the picker shows them. */
  const RoomLogos: seq<(string, Drawable)> := [
    ("bedroom", Bedroom),
    ("kitchen", Kitchen),
    ("living_room", LivingRoom),
    ("bathroom", Bathroom)
  ]
}
