/**
 * Map markers shared by the chat, dashboard and simulation pages. Coordinates
 * are exact reals: the source's floating-point values and their formatting are
 * not modelled.
 */
module Geo {

  /** A marker as the pages hand it to the map component: `{lat, lng, title, address}`. */
  datatype Marker = Marker(lat: real, lng: real, title: string, address: string)

  /** The centre of the contiguous United States, the dashboard's default centre and marker fallback. */
  const DefaultLat: real := 39.8283
  const DefaultLng: real := -98.5795
}
