/** Shared value types of the gallery (src/types.ts). */
module Types {

  /** `undefined`-or-value, used for optional fields such as a card's alt text. */
  datatype Option<+T> = None | Some(value: T)

  /** One card of the catalogue: identity, photo, cover emoji and optional alt text. */
  datatype CardConfig = CardConfig(id: string, imageSrc: string, emoji: string, alt: Option<string>)

  /** A card's placement: `x` in percent of the container width, `y` in pixels from the top. */
  datatype CardPosition = CardPosition(x: real, y: real)
}
