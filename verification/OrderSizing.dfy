/** Sizing, the merged limits and the broker fit together: what is sent can be filled. */
module OrderSizing {
  import opened Common
  import opened TradeTypes
  import opened LotCalculator
  import opened MockBroker
  import opened MemberModel

  /** The broker's and the account's limits leave something to trade. */
  predicate LimitsMeet(m: Member, spec: SymbolSpec) {
    Max(m.brokerMinLot, spec.minLot) <= Min(m.brokerMaxLot, spec.maxLot)
  }

  /** The engine never rounds up: it merges the account's step with the symbol's, which is positive for every symbol. */
  lemma EngineRoundsDown(m: Member, b: Account, settings: CopySettings, event: TradeEvent, symbol: Symbol, v: real)
    requires symbol in SYMBOLS
    ensures var step := LotInputsFor(m, settings, event, symbol, GetSymbolSpec(b, symbol).value).brokerLotStep;
            step > 0 && RoundToStep(v, step) as real <= v + NUDGE
  {
    RoundsDownIffStep(LotInputsFor(m, settings, event, symbol, GetSymbolSpec(b, symbol).value).brokerLotStep);
  }

  /** An accepted size is a whole number of hundredths, so converting it for the order loses nothing. */
  lemma OrderVolumeIsExact(m: Member, b: Account, settings: CopySettings, event: TradeEvent, symbol: Symbol)
    requires symbol in SYMBOLS && LimitsMeet(m, GetSymbolSpec(b, symbol).value)
    requires CalculateLot(LotInputsFor(m, settings, event, symbol, GetSymbolSpec(b, symbol).value)).Accepted?
    ensures var lot := CalculateLot(LotInputsFor(m, settings, event, symbol, GetSymbolSpec(b, symbol).value));
            && OrderVolume(lot.volume) * 100 == lot.volume
            && SYMBOLS[symbol].minLot <= OrderVolume(lot.volume) <= SYMBOLS[symbol].maxLot
  {
    var input := LotInputsFor(m, settings, event, symbol, GetSymbolSpec(b, symbol).value);
    AcceptedLotIsFillable(input, 100);
  }

  /** An OPEN that passes sizing and risk is never rejected by the broker. */
  lemma SentOrdersFill(m: Member, b: Account, sub: Subscription, event: TradeEvent, symbol: Symbol, row: RowId,
                       at: Moment)
    requires symbol in SYMBOLS ==> LimitsMeet(m, GetSymbolSpec(b, symbol).value)
    requires CopyToMember(m, b, sub, event, symbol, row, at).sent.Some?
    ensures CopyToMember(m, b, sub, event, symbol, row, at).outcome == SUCCESS
  {
    var m1 := m.(rows := m.rows[event.eventId := NewRow(sub, event, row)]);
    OrderVolumeIsExact(m1, b, sub.settings.value, event, symbol);
  }
}
