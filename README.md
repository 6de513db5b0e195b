# Sunshine wearable: icon lookup and data-change fan-out

This project models the two pieces of live logic in the wearable module of the
Sunshine weather application, and proves properties of each:

- **Weather icon lookup** (`WeatherIcon`, `weather_icon.dfy`).
  `getArtResourceForWeatherCondition` maps an OpenWeatherMap weather-condition
  code to one of eight `art_*` drawables, or to -1. The model has several parts:
  - The code is a Java 32-bit `int`, modelled as the newtype `int32`.
  - The drawables are the tags of `Icon`.
  - The result is `Found(icon)`, or `NotFound` for the sentinel -1.
  - The function keeps the source's ordered if/else chain.
  - Its contract ties it, in both directions, to `ConditionIcon`: the chain's
    code ranges grouped by icon, with 761 under Fog only. "The table" below
    means this relation. The published OpenWeatherMap list that the source
    links to (Utility.java:156-157) is not part of this model; it has codes,
    such as 771, that the chain sends to -1.
  - `BranchTest` lists the chain's eleven tests as written. It is used to state
    that the first test to hold wins, that the only overlap between tests is code
    761 (fog range and storm test), and that the storm test is taken for 781 only.
- **Data-change fan-out** (`WearableListener`, `wearable_listener.dfy`).
  `SunshineWearableListenerService.onDataChanged` walks a batch of data events
  and, for each `TYPE_CHANGED` event, extracts the event's data map and hands it
  to the registered `listener`, if that is non-null.
  - An event is a kind (`Created | Changed | Deleted`) and an opaque item.
  - The extraction `DataMapItem.fromDataItem(item).getDataMap()` is a function
    parameter `Item -> Payload`.
  - The static `listener` field is a nullable field of the service object.
  - Each `handleDataReceived` call is recorded in the listener's ghost trace
    `received`.
  - `OnDataChanged` keeps the source's loop. It is proved to extend the trace by
    exactly `Deliveries(batch)`.
  - Lemmas describe `Deliveries` exactly: it has one entry per Changed event
    and none for other events. The entries are in batch order, each one is the
    unmodified extracted map, and their number is the count of Changed events.
    `DeliveriesCons` unfolds `Deliveries` from the front for concrete batches.

## Model

| member | source | states |
|---|---|---|
| `WeatherIcon.ArtResourceForWeatherCondition` | sunshinewear/src/main/java/com/example/niren/sunshinewear/Utility.java:155-182 | For every icon, the result is `Found(icon)` exactly when the chain's ranges, grouped by icon with 761 under Fog only, put the code under that icon. The result is `NotFound` (-1) exactly when those ranges list the code nowhere. |
| `WeatherIcon.TableIsFunctional` | sunshinewear/src/main/java/com/example/niren/sunshinewear/Utility.java:156-179 | The chain's ranges grouped by icon (761 under Fog only) give no code two icons, so the two-way contract of the lookup names one icon per code. |
| `WeatherIcon.FirstMatchWins` | sunshinewear/src/main/java/com/example/niren/sunshinewear/Utility.java:158-179 | When test k of the chain holds and no earlier test does, the result is the icon of branch k. |
| `WeatherIcon.NotFoundIffNoTestHolds` | sunshinewear/src/main/java/com/example/niren/sunshinewear/Utility.java:158-181 | The result is -1 exactly when none of the eleven tests of the chain holds. |
| `WeatherIcon.OnlyOverlapIs761` | sunshinewear/src/main/java/com/example/niren/sunshinewear/Utility.java:170-173 | If two different tests of the chain both hold for a code, they are the fog range and the storm test, and the code is 761. |
| `WeatherIcon.StormTestReachedOnlyFor781` | sunshinewear/src/main/java/com/example/niren/sunshinewear/Utility.java:170-173 | If the storm test `761 or 781` is reached and holds, the code is 781. Its 761 half is dead. |
| `WeatherIcon.StormCodes` | sunshinewear/src/main/java/com/example/niren/sunshinewear/Utility.java:158-173 | Codes 200..232 and 781 give Storm. |
| `WeatherIcon.LightRainCodes` | sunshinewear/src/main/java/com/example/niren/sunshinewear/Utility.java:160-161 | Codes 300..321 give LightRain. |
| `WeatherIcon.RainCodes` | sunshinewear/src/main/java/com/example/niren/sunshinewear/Utility.java:162-167 | Codes 500..504 and 520..531 give Rain. |
| `WeatherIcon.SnowCodes` | sunshinewear/src/main/java/com/example/niren/sunshinewear/Utility.java:164-169 | Code 511 and codes 600..622 give Snow. |
| `WeatherIcon.FogCodes` | sunshinewear/src/main/java/com/example/niren/sunshinewear/Utility.java:170-173 | Codes 701..761 give Fog. This includes 761, although the later storm test also matches 761. |
| `WeatherIcon.CloudCodes` | sunshinewear/src/main/java/com/example/niren/sunshinewear/Utility.java:174-179 | 800 gives Clear, 801 gives LightClouds, and 802..804 give Clouds. |
| `WeatherIcon.UnlistedCodes` | sunshinewear/src/main/java/com/example/niren/sunshinewear/Utility.java:180-181 | Codes below 200 (negative codes included), 233, 505, 762, 780 and codes above 804 give -1. |
| `WearableListener.Deliveries` | sunshinewear/src/main/java/com/example/android/sunshine/app/SunshineWearableListenerService.java:22-28 | The payloads a batch delivers, one per Changed event in batch order. There are never more of them than events. |
| `WearableListener.ChangedPositionsExact` | sunshinewear/src/main/java/com/example/android/sunshine/app/SunshineWearableListenerService.java:22-23 | A batch position leads to a delivery exactly when its event is Changed. Created and Deleted events are skipped. |
| `WearableListener.ChangedPositionsIncreasing` | sunshinewear/src/main/java/com/example/android/sunshine/app/SunshineWearableListenerService.java:22-23 | The delivering positions are strictly increasing. So deliveries follow batch order, and no event is delivered twice. |
| `WearableListener.DeliveriesAtChangedPositions` | sunshinewear/src/main/java/com/example/android/sunshine/app/SunshineWearableListenerService.java:22-27 | The k-th delivery is the extracted data map of the k-th Changed event, passed unmodified. There is one delivery per Changed event. |
| `WearableListener.DeliveriesCount` | sunshinewear/src/main/java/com/example/android/sunshine/app/SunshineWearableListenerService.java:22-28 | The number of deliveries equals the number of Changed events in the batch, counted from the front by `CountChanged`. |
| `WearableListener.NothingDeliveredIffNoChange` | sunshinewear/src/main/java/com/example/android/sunshine/app/SunshineWearableListenerService.java:22-23 | A batch delivers nothing exactly when it holds no Changed event. |
| `WearableListener.DeliveriesConcat` | sunshinewear/src/main/java/com/example/android/sunshine/app/SunshineWearableListenerService.java:22-29 | The deliveries of a concatenated batch are the deliveries of its first part followed by those of its second part. |
| `WearableListener.DeliveriesCons` | sunshinewear/src/main/java/com/example/android/sunshine/app/SunshineWearableListenerService.java:22-28 | The first event of a batch delivers first: its extracted map if it is Changed, nothing otherwise; the rest of the batch follows. |
| `WearableListener.ChangedAmidOthers` | sunshinewear/src/main/java/com/example/android/sunshine/app/SunshineWearableListenerService.java:22-27 | A Created, a Changed and a Deleted event, in that order, deliver exactly the Changed event's map, once. |
| `WearableListener.ChangedThenDeleted` | sunshinewear/src/main/java/com/example/android/sunshine/app/SunshineWearableListenerService.java:22-27 | A batch of one Changed and one Deleted event delivers exactly the Changed event's map, once. |
| `WearableListener.DataReceivedListener.HandleDataReceived` | sunshinewear/src/main/java/com/example/android/sunshine/app/SunshineWearableListenerService.java:13-15 | A callback appends the map it receives to the listener's trace and changes nothing else. |
| `WearableListener.SunshineWearableListenerService.constructor` | sunshinewear/src/main/java/com/example/android/sunshine/app/SunshineWearableListenerService.java:17 | The listener field starts as null, Java's default for a static reference. |
| `WearableListener.SunshineWearableListenerService.OnDataChanged` | sunshinewear/src/main/java/com/example/android/sunshine/app/SunshineWearableListenerService.java:17-30 | The `listener` field is left unchanged. With a listener, its trace grows by exactly `Deliveries(batch)`, in batch order. With no listener, the frame allows no change, so the call completes with no effect. |

## Left out

- `super.onDataChanged` (SunshineWearableListenerService.java:21): a call into the Wear framework. Its code is not part of this model.
- `DataMapItem.fromDataItem` / `getDataMap`: vendor code, not visible here. Extraction is a function parameter, treated as pure and total.
- The concrete `DataMap` contents: the payload is a type parameter.
- OnDataChanged: the callback `HandleDataReceived` always returns in the model. In the source `handleDataReceived` is arbitrary code (SunshineWearableListenerService.java:26); if it throws, the loop ends, the exception leaves `onDataChanged`, and only a proper prefix of `Deliveries(batch)` reaches the listener. The model does not capture that partial delivery.
- Threading: any race on the static `listener` field, and a callback that reassigns `listener` while the loop runs. `HandleDataReceived` may change only its own trace.
- The static field: Dafny has no mutable static fields, so `listener` is a field of the one service object.
- Event kinds: Wear's `DataEvent` reports an `int` type. The model uses the three kinds `Created | Changed | Deleted`. The source compares only with `TYPE_CHANGED`, so every other kind is skipped in the same way.
- The concrete `R.drawable.art_*` integer ids: these are generated resources. They are distinct `Icon` tags, distinct from `NotFound`.
- `formatDate`, `getFriendlyDayString`, `getDayName`, `getFormattedMonthDay` and `getFullFriendlyDayString` (Utility.java:33-106): these depend on locale, time zone, the system clock and Android string resources. The unused julian-day computation in `getDayName` does not affect its output.
- `formatTemperature` (Utility.java:199-201): locale-aware floating-point formatting with a resource template.
- `isNetworkAvailable` (Utility.java:190-197): a live query to the platform's connectivity service.
- `getArtUrlForWeatherCondition` (Utility.java:108-147): commented out, so it is not live code.
