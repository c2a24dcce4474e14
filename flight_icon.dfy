/** The marker style decision of frontend/src/components/FlightIcon.ts: the
    colours, stroke, animation and geometry of the aircraft marker. */
module FlightIcon {

  datatype Point = Point(x: int, y: int)

  /** The parameters `createFlightIcon` hands to the marker factory: the SVG's
      fill, stroke, stroke width, CSS animation class and rotation, and the
      icon's class name, size and anchors. */
  datatype Icon = Icon(
    fill: string,
    stroke: string,
    strokeWidth: string,
    animationClass: string,
    rotation: real,
    className: string,
    iconSize: Point,
    iconAnchor: Point,
    popupAnchor: Point)

  const EmergencyFill := "#ef4444"
  const SelectedFill := "#ffcc00"
  const NormalFill := "#eab308"
  const HighlightStroke := "#ffffff"
  const NormalStroke := "#000000"
  const PulseClass := "animate-pulse"

  /** createFlightIcon(rotation, selected, isEmergency). */
  function CreateFlightIcon(rotation: real, selected: bool, emergency: bool): (icon: Icon)
    ensures icon.fill == EmergencyFill <==> emergency
    ensures icon.fill == SelectedFill <==> selected && !emergency
    ensures icon.fill == NormalFill <==> !selected && !emergency
    ensures icon.stroke == HighlightStroke <==> selected || emergency
    ensures icon.stroke == NormalStroke <==> !selected && !emergency
    ensures icon.strokeWidth == "2" <==> selected
    ensures icon.strokeWidth == "1" <==> !selected
    ensures icon.animationClass == PulseClass <==> emergency
    ensures icon.animationClass == "" <==> !emergency
    ensures icon.rotation == rotation
    ensures icon.className == "flight-icon"
    ensures icon.iconSize == Point(30, 30)
    ensures icon.iconAnchor == Point(icon.iconSize.x / 2, icon.iconSize.y / 2)
    ensures icon.popupAnchor == Point(0, -icon.iconAnchor.y)
  {
    var fill := if emergency then EmergencyFill else if selected then SelectedFill else NormalFill;
    var stroke := if selected || emergency then HighlightStroke else NormalStroke;
    var animation := if emergency then PulseClass else "";
    Icon(fill, stroke, if selected then "2" else "1", animation, rotation,
         "flight-icon", Point(30, 30), Point(15, 15), Point(0, -15))
  }

  /** What a viewer can read back from a marker: is it selected (thick
      stroke), is it an emergency (pulsing). */
  function MarkerFlags(icon: Icon): (bool, bool)
  {
    (icon.strokeWidth == "2", icon.animationClass == PulseClass)
  }

  /** The marker shows both inputs unambiguously: the flags are recovered from
      the icon, so two different (selected, emergency) pairs never look alike. */
  lemma {:induction false} FlagsRecoverable(rotation: real, selected: bool, emergency: bool)
    ensures MarkerFlags(CreateFlightIcon(rotation, selected, emergency)) == (selected, emergency)
  {
    var icon := CreateFlightIcon(rotation, selected, emergency);
    assert (icon.strokeWidth == "2") == selected;
    assert (icon.animationClass == PulseClass) == emergency;
  }

  /** Emergency dominates selection for the fill, but not for the stroke width. */
  lemma EmergencyDominatesFill(rotation: real, selected: bool)
    ensures CreateFlightIcon(rotation, selected, true).fill == CreateFlightIcon(rotation, !selected, true).fill
    ensures CreateFlightIcon(rotation, selected, true).strokeWidth != CreateFlightIcon(rotation, !selected, true).strokeWidth
  {
  }
}
