# Snail Breeding: fertilisation oracle and relationship enumeration

This project models the snail variant's test helper `test/TestHelpers/SnailTH.js` from the
Snail_Breeding repository. The helper has two parts.

- `calcFertilisationTH` works out, from the timestamp of the block that holds a breed
  transaction, whether each of the two mates should have been fertilised. Mate A is
  fertilised when the timestamp's last decimal digit is odd. Mate B is fertilised when the
  timestamp's tens digit is odd.
- `Relationship` is a frozen table that maps the 20 kinship names to the ordinals 0..19 that
  the relationship resolver returns.

The model also covers how the breed test uses the helper's result. It derives the newborn
count and the expected conception records from the pair of flags.

Files:

- `wrappers.dfy` holds `Option`. It stands for JavaScript's `undefined`.
- `relationship.dfy` (module `SnailRelationship`) holds the enumeration as a datatype. It
  has the ordinal of each name, the declaration order (`Object.keys(Relationship)`) and
  decoding an ordinal back to its name.
- `fertilisation.dfy` (module `SnailFertilisation`) holds the two pseudo-random digits, the
  outcome pair and the breed test's expectations. A separate decimal-digit definition
  (`Digits`, `Value`, `Digit`) is the reference that "last digit" and "tens digit" are
  proved against.

## Model

| member | source | states |
|---|---|---|
| SnailRelationship.Ordinal | test/TestHelpers/SnailTH.js:7-10 | every relationship name maps to an ordinal below 20 |
| SnailRelationship.KeysInDeclarationOrder | test/TestHelpers/SnailTH.js:7-11 | the 20 names in declaration order sit at the positions of their ordinals, and every name appears at its ordinal's position |
| SnailRelationship.KeyAt | test/03.snailToken_get_relationship_test.js:137 | `Object.keys(Relationship)[value]` gives a name exactly when value < 20, and that name's ordinal is value; otherwise it gives nothing |
| SnailRelationship.KeyAtOrdinal | test/TestHelpers/SnailTH.js:7-10 | decoding the ordinal of any name gives that name back |
| SnailRelationship.OrdinalsDistinct | test/TestHelpers/SnailTH.js:7-10 | distinct names have distinct ordinals |
| SnailRelationship.NamedOrdinals | test/TestHelpers/SnailTH.js:7-10 | None = 0, ExPartner = 1, Oneself = 2, Mother = 3, Father = 4, Child = 5, FullSibling = 6, HalfSibling = 7, FirstCousinTwiceRemoved = 19 |
| SnailFertilisation.PseudoRandomA | test/TestHelpers/SnailTH.js:26 | `pseudoRandomA` is the timestamp's last decimal digit, so it lies in 0..9 |
| SnailFertilisation.PseudoRandomB | test/TestHelpers/SnailTH.js:27 | `pseudoRandomB` is the timestamp's tens digit, so it lies in 0..9 |
| SnailFertilisation.CalcFertilisation | test/TestHelpers/SnailTH.js:26-33 | the outcome pair: mate A is fertilised iff the timestamp is odd, mate B iff floor(timestamp / 10) is odd |
| SnailFertilisation.FertilisedByOddDigits | test/TestHelpers/SnailTH.js:26-31 | mate A is fertilised iff the timestamp's last decimal digit is odd; mate B iff its tens digit is odd |
| SnailFertilisation.PeriodicInHundreds | test/TestHelpers/SnailTH.js:26-31 | timestamps ts and ts + 100k give the same pair of outcomes |
| SnailFertilisation.LastTwoDigitsDecide | test/TestHelpers/SnailTH.js:26-31 | the outcome for ts equals the outcome for ts mod 100 |
| SnailFertilisation.NextTimestampFor | test/TestHelpers/SnailTH.js:30-31 | each of the four outcomes (both, A only, B only, neither) is reached; from any start time, the first timestamp that gives it is at most 11 seconds later |
| SnailFertilisation.TwelveSecondWindowIsTight | test/TestHelpers/SnailTH.js:30-31 | the bound of 11 seconds is reached: none of the timestamps 0..10 fertilises both mates |
| SnailFertilisation.NewbornCount | test/02.snailToken_breed_test.js:538-540 | the expected newborn count is 0, 1 or 2; it is 0 iff neither mate is fertilised and 2 iff both are |
| SnailFertilisation.NewbornsFromTimestamp | test/02.snailToken_breed_test.js:538-540 | the expected newborn count for a timestamp is (ts mod 2) + (floor(ts / 10) mod 2) |
| SnailFertilisation.ExpectedConceptions | test/02.snailToken_breed_test.js:272-299 | one conception per fertilised mate, so the list length is the newborn count; each conception has the given generation and has the two mates as parents; mate A (or B) is fertilised iff a conception with that mate as mum and the other as dad is present; when both are fertilised, mate A's conception comes first |

## Left out

- The block lookup in `calcFertilisationTH` (`web3.eth.getBlock` wrapped in `truffleAssert.passes`) is an asynchronous chain call. The block timestamp is a `nat` parameter instead, and a failed lookup is not modelled.
- `Number(timestamp)` loses precision above 2^53 in JavaScript. The model uses unbounded integers, because block timestamps are far below that bound.
- `Object.freeze`: Dafny datatype values and `const`s are immutable, so the enumeration cannot change. Writes to the frozen JavaScript object (ignored in sloppy code, a TypeError in strict code) are not modelled.
- The Solidity contracts `SnailToken` and `PersonToken` are not part of this model. That covers the breeding engine, the relationship resolver, the registry, pausing, ownership, approvals and events.
- The test suites `test/01.*` to `test/04.*` drive those contracts over a chain. Only these uses of the helper by the suites are modelled: the newborn count, the conception list, and the relationship tests' decoding of a returned value with `Object.keys(Relationship)[value]` (`KeyAt`).
- The retry loops that breed until both mates produce a newborn are not modelled. They depend on chain time and transactions, and they decide each try with `whoIsFertilisedTH` rather than `calcFertilisationTH`. `NextTimestampFor` says only that any twelve consecutive timestamps give every outcome of `calcFertilisationTH`.
- `whoIsFertilisedTH` is not modelled. The person variant's version lives in `test/TestHelpers/PersonTH.js`, which is not part of this model. The snail helper does not export one.
- The migrations only deploy contracts, so they are not modelled.
- ExpectedConceptions requires the two mate ids to differ, because the contracts refuse to breed a mate with itself.
