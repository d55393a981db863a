/** The vehicle battery card: colour thresholds for charge level and health,
    the bar styles, and the tooltip that follows the mouse. */
module VehicleBatteryView {
  import opened Js

  /** The fixed battery figures the card shows. */
  datatype BatteryInfo = BatteryInfo(currentLevel: nat, health: nat)

  /** A point on the page, in pixels. */
  datatype Position = Position(x: int, y: int)

  const Battery := BatteryInfo(85, 70)

  const Red := "#F44336"
  const Orange := "#FF9800"
  const Yellow := "#FFC107"
  const Blue := "#2196F3"
  const Green := "#4CAF50"

  /** The charge colour. */
  function BatteryColor(level: int): (c: string)
    ensures level < 20 ==> c == Red
    ensures 20 <= level < 50 ==> c == Orange
    ensures 50 <= level < 80 ==> c == Blue
    ensures 80 <= level ==> c == Green
  {
    if level < 20 then Red else if level < 50 then Orange else if level < 80 then Blue else Green
  }

  /** The health colour. */
  function BatteryHealthColor(health: int): (c: string)
    ensures health < 50 ==> c == Red
    ensures 50 <= health < 80 ==> c == Yellow
    ensures 80 <= health ==> c == Green
  {
    if health < 50 then Red else if health < 80 then Yellow else Green
  }

  function HealthRank(c: string): int {
    if c == Red then 0 else if c == Yellow then 1 else 2
  }

  /** Better health never gets a worse colour. */
  lemma HealthColorMonotone(a: int, b: int)
    requires a <= b
    ensures HealthRank(BatteryHealthColor(a)) <= HealthRank(BatteryHealthColor(b))
  {
  }

  /** A bar's style: the raw value as the width and the given colour. */
  function BarStyle(value: nat, color: string): (s: string)
    ensures s == "width: " + NatToString(value) + "%; background-color: " + color + ";"
  {
    "width: " + NatToString(value) + "%; background-color: " + color + ";"
  }

  /** The width printed in a bar's style reads back as the bar's value. */
  lemma BarWidthReadsBack(value: nat, color: string)
    ensures exists w :: (forall i :: 0 <= i < |w| ==> '0' <= w[i] <= '9')
                        && BarStyle(value, color) == "width: " + w + "%; background-color: " + color + ";"
                        && DigitsValue(w) == value
  {
    NatToStringRoundTrip(value);
  }

  function BatteryLevelStyle(info: BatteryInfo): string {
    BarStyle(info.currentLevel, BatteryColor(info.currentLevel))
  }

  function BatteryHealthStyle(info: BatteryInfo): string {
    BarStyle(info.health, BatteryHealthColor(info.health))
  }

  /** The card's figures: 85% charge in green, 70% health in yellow. */
  lemma FixedBatteryStyles()
    ensures BatteryLevelStyle(Battery) == BarStyle(85, Green)
    ensures BatteryHealthStyle(Battery) == BarStyle(70, Yellow)
    ensures NatToString(85) == "85" && NatToString(70) == "70"
  {
    assert DigitChar(8) == '8' && DigitChar(5) == '5' && DigitChar(7) == '7' && DigitChar(0) == '0';
    assert NatToString(8) == "8" && NatToString(7) == "7";
  }

  /** The tooltip sits 20px right of and 320px above its position. */
  function TooltipStyle(p: Position): (s: string)
    ensures s == "left: " + IntToString(p.x + 20) + "px; top: " + IntToString(p.y - 320) + "px;"
  {
    "left: " + IntToString(p.x + 20) + "px; top: " + IntToString(p.y - 320) + "px;"
  }

  class VehicleBatteryView {
    var showBatteryTooltip: bool
    var tooltipPosition: Position

    constructor ()
      ensures !showBatteryTooltip && tooltipPosition == Position(0, 0)
    {
      showBatteryTooltip := false;
      tooltipPosition := Position(0, 0);
    }

    /** Shows the tooltip at `anchor`, the top centre of the hovered element less 10px. */
    method HandleMouseEnter(anchor: Position)
      modifies this`tooltipPosition, this`showBatteryTooltip
      ensures showBatteryTooltip && tooltipPosition == anchor
    {
      tooltipPosition := anchor;
      showBatteryTooltip := true;
    }

    method HandleMouseLeave()
      modifies this`showBatteryTooltip
      ensures !showBatteryTooltip
    {
      showBatteryTooltip := false;
    }

    /** Follows the mouse, 10px above it, only while the tooltip is shown. */
    method HandleMouseMove(clientX: int, clientY: int)
      modifies this`tooltipPosition
      ensures showBatteryTooltip ==> tooltipPosition == Position(clientX, clientY - 10)
      ensures !showBatteryTooltip ==> tooltipPosition == old(tooltipPosition)
    {
      if showBatteryTooltip {
        tooltipPosition := Position(clientX, clientY - 10);
      }
    }
  }

  /** A move after leaving does not drag the hidden tooltip along. */
  method MoveAfterLeaveKeepsPosition(anchor: Position, x: int, y: int)
    returns (moved: Position, afterLeave: Position)
    ensures moved == Position(x, y - 10) && afterLeave == moved
  {
    var v := new VehicleBatteryView();
    v.HandleMouseEnter(anchor);
    v.HandleMouseMove(x, y);
    moved := v.tooltipPosition;
    v.HandleMouseLeave();
    v.HandleMouseMove(x + 1, y + 1);
    afterLeave := v.tooltipPosition;
  }
}
