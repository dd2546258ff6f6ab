# RatingPrompt, modelled in Dafny

RatingPrompt is a small Android library that asks users to rate an
application once they have opened it often enough. Its logic is a
launch-count / show-once state machine:

- Each launch calls `onOpen`. This is a read-modify-write of a preference
  file named "RatingDialog", which holds three keys: `show`, `num_opens` and
  `num_opens_thres`.
- A launch is a *first run* when no threshold is stored, or when the stored
  threshold is -1. On a first run the prompt becomes active and keeps its
  in-memory count. Otherwise it loads `show` (default `true`) and
  `num_opens` (default -1).
- `onOpen` then counts the launch and writes all three keys.
- `show` fires the dialog when the count has reached the threshold and the
  prompt is active. Firing makes the prompt inactive in memory and in the
  file.
- A `Builder` holds the settings. A process-wide singleton builds the
  instance from it once.

The model is functional. It has an immutable `World` (the instance plus the
file), pure `OnOpen`/`Show` transitions, and theorems over sequences of
launches.

Files:

- `options.dfy`: `Option` (an absent key or a null reference) and `Result`.
- `java_int.dfy`: Java's 32-bit `int`, with `numOpens++` wrapping around
  as it does in Java.
- `rating_prompt.dfy`: the store, the instance, `IsFirstRun`, `ReadStore`,
  `WriteStore`, `SetActive`, `OnOpen` and `Show`.
- `singleton.dfy`: `Builder`, `Build`, and the registry of the two static
  fields, with `SetBuilder` and `GetInstance`.
- `launches.dfy`: event sequences and the theorems. `Launch` starts a new
  process: it builds a fresh instance with the same settings, and the file
  survives. `Open` is `onOpen` and `ShowPrompt` is `show`.
- `demo.dfy`: the demo application's start-up wiring (threshold 3), and
  the default threshold of 0. The demo's own start-up only counts the
  launch. The show step of each session stands for a host screen that calls
  `show`, and that screen is not part of this model.

A freshly built instance has `numOpens == 0` and `active == false`. These
are Java's field defaults, because the constructor assigns neither field.

## Model

| member | source | states |
|---|---|---|
| JavaInt.Inc | ratingprompt/src/main/java/com/epsilonv/ratingprompt/RatingPrompt.java:76 | `numOpens++` adds one below `Integer.MAX_VALUE` and wraps to `Integer.MIN_VALUE` at it |
| RatingPrompt.Fresh | ratingprompt/src/main/java/com/epsilonv/ratingprompt/RatingPrompt.java:33-47 | a newly constructed instance has the given settings and Java's field defaults: count 0 and inactive. It cannot show anything before its first `onOpen`, and over an untouched file that first launch counts 1 |
| RatingPrompt.IsFirstRun | ratingprompt/src/main/java/com/epsilonv/ratingprompt/RatingPrompt.java:122-124 | a store is a first run iff `num_opens_thres` is absent or holds -1 |
| RatingPrompt.ReadStore | ratingprompt/src/main/java/com/epsilonv/ratingprompt/RatingPrompt.java:109-112 | `active` is false only when `show` is stored false; `numOpens` is the stored count, or -1 when the key is absent; the settings are untouched |
| RatingPrompt.WriteStore | ratingprompt/src/main/java/com/epsilonv/ratingprompt/RatingPrompt.java:114-120 | all three keys are written; reading them back restores the instance; the result is past its first run iff the threshold is not -1 |
| RatingPrompt.SetActive | ratingprompt/src/main/java/com/epsilonv/ratingprompt/RatingPrompt.java:126-130 | only the `show` key changes, so whether the file is a first run does not change |
| RatingPrompt.DoShowDialog | ratingprompt/src/main/java/com/epsilonv/ratingprompt/RatingPrompt.java:105-107 | the count gate is open iff the launch count has reached the threshold |
| RatingPrompt.GateAfterIncrement | ratingprompt/src/main/java/com/epsilonv/ratingprompt/RatingPrompt.java:76-106 | an open gate stays open after `numOpens++` below `Integer.MAX_VALUE`. At `Integer.MAX_VALUE` the count wraps, and the gate stays open iff the threshold is `Integer.MIN_VALUE` |
| RatingPrompt.OnOpen | ratingprompt/src/main/java/com/epsilonv/ratingprompt/RatingPrompt.java:68-78 | the new count is one more (wrapping) than its start. On a non-first run the start is the stored count, or -1 when absent. On a first run it is the in-memory count, the prompt becomes active, and the stored `show` is ignored. Afterwards the file mirrors memory and holds the configured threshold. A later launch is a first run iff that threshold is -1 |
| RatingPrompt.Show | ratingprompt/src/main/java/com/epsilonv/ratingprompt/RatingPrompt.java:80-107 | fires iff `numOpens >= threshold` and active. On firing, `active` is false in memory and in the `show` key. Otherwise nothing changes. The count, the settings and the other two keys never change |
| Singleton.Build | ratingprompt/src/main/java/com/epsilonv/ratingprompt/RatingPrompt.java:170-171 | the instance's settings are the builder's fields, unchanged; its count is 0 and it is inactive |
| Singleton.SetBuilder | ratingprompt/src/main/java/com/epsilonv/ratingprompt/RatingPrompt.java:49-51 | stores the builder, which may be null, and keeps an instance already built |
| Singleton.GetInstance | ratingprompt/src/main/java/com/epsilonv/ratingprompt/RatingPrompt.java:57-66 | returns an existing instance without building. Otherwise it builds from the stored builder and keeps the result. With neither an instance nor a builder it fails, because `getInstance` dereferences the null builder |
| Singleton.GetInstanceIsStable | ratingprompt/src/main/java/com/epsilonv/ratingprompt/RatingPrompt.java:57-66 | after one success, a second `getInstance` changes nothing and returns the same instance |
| Singleton.LaterBuilderIgnored | ratingprompt/src/main/java/com/epsilonv/ratingprompt/RatingPrompt.java:49-66 | a `setBuilder` after the instance exists does not change the instance returned |
| Singleton.FirstInstanceFromBuilder | ratingprompt/src/main/java/com/epsilonv/ratingprompt/RatingPrompt.java:38-47 | on a freshly loaded class, `setBuilder` then `getInstance` yields a fresh instance with the builder's threshold |
| Singleton.NullBuilderFails | ratingprompt/src/main/java/com/epsilonv/ratingprompt/RatingPrompt.java:49-61 | `setBuilder(null)` before an instance exists makes the next `getInstance` fail, whatever builder was set before |
| Launches.RunAppend | ratingprompt/src/main/java/com/epsilonv/ratingprompt/RatingPrompt.java:68-107 | running two event sequences one after the other is running their concatenation; the fire counts add up |
| Launches.Step | app/src/main/java/com/epsilonv/ratingpromptdemo/MyApplication.java:20-22 | a launch is a new process: a fresh instance with the same settings, the file unchanged, nothing shown. An open is `onOpen`, and a show is `show` |
| Launches.StepConsistent | ratingprompt/src/main/java/com/epsilonv/ratingprompt/RatingPrompt.java:71-81 | no event activates the prompt without the file holding its threshold. Only an active `show` fires, and firing (threshold not -1) reaches the silenced state |
| Launches.StepSilenced | ratingprompt/src/main/java/com/epsilonv/ratingprompt/RatingPrompt.java:100-124 | once silenced (inactive, `show` stored false, file past its first run), no event fires and the state stays silenced |
| Launches.RunConsistent | ratingprompt/src/main/java/com/epsilonv/ratingprompt/RatingPrompt.java:68-130 | no run makes the prompt active without the file holding its threshold. A freshly built instance is inactive, so this holds for every state reachable from one |
| Launches.SilencedRun | ratingprompt/src/main/java/com/epsilonv/ratingprompt/RatingPrompt.java:100-124 | with a threshold other than -1, no sequence of events after the dialog fired fires it again |
| Launches.AtMostOnce | ratingprompt/src/main/java/com/epsilonv/ratingprompt/RatingPrompt.java:68-130 | with a threshold other than -1, any sequence of launches, opens and shows fires the dialog at most once. It must start from a state where an active prompt's file holds its threshold, which holds for every state reachable from a freshly built instance |
| Launches.AtMostOnceFromLaunch | ratingprompt/src/main/java/com/epsilonv/ratingprompt/RatingPrompt.java:68-130 | the same from a freshly built instance, whatever the file holds |
| Launches.StaysPastFirstRun | ratingprompt/src/main/java/com/epsilonv/ratingprompt/RatingPrompt.java:114-130 | with a threshold other than -1, once the file is past its first run, no sequence of events makes it a first run again |
| Launches.CountingSessions | ratingprompt/src/main/java/com/epsilonv/ratingprompt/RatingPrompt.java:105-111 | with a threshold other than -1, below the threshold each session adds one to the stored count, whatever its sign, and leaves `show` true. After `k` sessions from count `j`, the file holds count `j + k` while that is below the threshold. The dialog fires exactly once if the count reaches the threshold within the sessions |
| Launches.FiresAtThreshold | ratingprompt/src/main/java/com/epsilonv/ratingprompt/RatingPrompt.java:68-107 | with a threshold other than -1, on a device that never saw the prompt, `k` sessions (launch, open, show) fire once iff `k >= 1` and `k >= threshold`, and otherwise never |
| Launches.SentinelFiresEverySession | ratingprompt/src/main/java/com/epsilonv/ratingprompt/RatingPrompt.java:118-124 | with threshold -1 and starting from a file that is a first run, every launch is a first run, so each of `k` sessions fires the dialog |
| Demo.StartUp | app/src/main/java/com/epsilonv/ratingpromptdemo/MyApplication.java:20-21 | `setBuilder` then `getInstance` on a fresh process yields exactly `Build` of the builder |
| Demo.DemoBuilder | app/src/main/java/com/epsilonv/ratingpromptdemo/MyApplication.java:12-19 | the demo's builder sets the package name, both titles, both messages (the question naming the app) and threshold 3 |
| Demo.DemoFiresOnThirdSession | app/src/main/java/com/epsilonv/ratingpromptdemo/MyApplication.java:12-22 | on a device that never saw the prompt, with the demo's threshold 3, two sessions show nothing. Any three or more show the dialog exactly once |
| Demo.UnsetThresholdFiresFirstSession | ratingprompt/src/main/java/com/epsilonv/ratingprompt/RatingPrompt.java:138 | an unset builder threshold is 0, so on a device that never saw the prompt the dialog shows in the first session and never again |

## Left out

- The two dialogs, their buttons and the store deep link (`AlertDialog`, `Intent`, `Uri`). `Show` reports only whether the dialog was shown.
- The double-checked `synchronized` locking in `getInstance`. Initialisation is modelled sequentially.
- The asynchrony of `SharedPreferences.apply()` and the `Context` lookup. The file is a synchronous value.
- Builder setters. They are field assignments, written as Dafny record updates (`b.(numOpensThreshold := 3)`).
- Builder aliasing. Java keeps a reference to the builder, so a setter called after `setBuilder` but before `getInstance` still takes effect. Here `SetBuilder` stores a value, and that case is written as a second `SetBuilder`.
- Values of the wrong type under a key (a `ClassCastException` in `getInt`/`getBoolean`). The store holds typed values only.
- The registry records the instance as built. Later `onOpen`/`show` calls change the instance's fields, and those changes are tracked in `World`, not in the registry.
