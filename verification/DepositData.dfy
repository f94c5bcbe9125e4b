/** The byte format of a fungible transfer: amount word, length word, recipient bytes. */
module DepositData {
  import opened Prelude
  import opened Xcm
  import opened Words

  type LocationDecoder = Bytes -> Option<MultiLocation>

  function Create(amount: u128, recipient: Bytes): Bytes {
    Word(amount) + Word(|recipient| % TWO_128) + recipient
  }

  /** The amount word of deposit data that is long enough to have one. */
  function AmountWord(data: Bytes): nat {
    if |data| < 32 then 0 else FromBigEndian(data[..32])
  }

  /** A length that does not fit the platform's `usize` differs from `|data| - 64` as well. */
  function Extract(decode: LocationDecoder, data: Bytes): Option<(u128, MultiLocation)> {
    if |data| < 64 then None
    else
      var amount := FromBigEndian(data[..32]);
      var recipientLength := FromBigEndian(data[32..64]);
      if amount >= TWO_128 || |data| - 64 != recipientLength then None
      else
        match decode(data[64..])
        case None => None
        case Some(location) => Some((amount, location))
  }

  lemma Layout(amount: u128, recipient: Bytes)
    ensures var data := Create(amount, recipient);
            && |data| == 64 + |recipient|
            && data[..32] == Word(amount)
            && data[32..64] == Word(|recipient| % TWO_128)
            && data[64..] == recipient
            && AmountWord(data) == amount
  {
    WordRoundTrip(amount);
  }

  /** Reading back what was written, for any decoder that inverts the recipient's encoding. */
  lemma ExtractCreate(decode: LocationDecoder, amount: u128, recipient: Bytes)
    requires |recipient| < TWO_64
    ensures Extract(decode, Create(amount, recipient)) ==
            match decode(recipient) case None => None case Some(location) => Some((amount, location))
  {
    var data, n := Create(amount, recipient), |recipient|;
    assert n % TWO_128 == n;
    Layout(amount, recipient);
    WordRoundTrip(amount);
    WordRoundTrip(n);
    assert FromBigEndian(data[..32]) == amount && FromBigEndian(data[32..64]) == n == |data| - 64;
  }

  /** Nothing else is accepted: accepted data is exactly what the writer produces. */
  lemma CreateExtract(decode: LocationDecoder, data: Bytes)
    requires |data| < TWO_64
    requires Extract(decode, data).Some?
    ensures var (amount, location) := Extract(decode, data).value;
            && amount == AmountWord(data)
            && data == Create(amount, data[64..])
            && decode(data[64..]) == Some(location)
  {
    WordOfValue(data[..32]);
    WordOfValue(data[32..64]);
    assert Word(|data[64..]| % TWO_128) == data[32..64];
    ThreeParts(data);
  }

  lemma ThreeParts(data: Bytes)
    requires |data| >= 64
    ensures data == data[..32] + data[32..64] + data[64..]
  {
  }
}
