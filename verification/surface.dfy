/** What the module hands to, and receives from, the control-surface framework:
    definitions of actions, feedbacks, variables and presets, published variable
    values, and the calls it makes on the framework, recorded as events. */
module Surface {
  import opened Js

  /** The framework's connection status (`InstanceStatus`); `StatusOk` is its `Ok`. */
  datatype InstanceStatus = Connecting | StatusOk | UnknownError

  datatype Choice = Choice(id: Json, caption: string)

  /** An option field shown for an action or feedback. */
  datatype OptionField =
    | Dropdown(id: string, caption: string, default: Json, choices: seq<Choice>)
    | NumberField(id: string, caption: string, default: Json, min: int)

  datatype ActionDefinition = ActionDefinition(name: string, options: seq<OptionField>)

  datatype FeedbackDefinition = FeedbackDefinition(name: string, description: string, options: seq<OptionField>)

  datatype VariableDefinition = VariableDefinition(name: string, variableId: string)

  datatype ActionRef = ActionRef(actionId: string, options: JsObject)

  datatype FeedbackRef = FeedbackRef(feedbackId: string, options: JsObject)

  datatype Step = Step(down: seq<ActionRef>, up: seq<ActionRef>)

  /** A button preset (colours and text size are not modelled). */
  datatype Preset = Preset(category: string, name: string, text: string, steps: seq<Step>, feedbacks: seq<FeedbackRef>)

  /** A published variable value. `Watts(mw)` stands for the text `${mw / 1000} W`,
      whose floating-point formatting is not modelled. */
  datatype VariableValue = Plain(v: Json) | Watts(milliwatts: Json)

  /** One call made on the framework. */
  datatype Event =
    | StatusUpdated(status: InstanceStatus, message: string)
    | FeedbacksChecked
    | VariableValuesSet(values: map<string, VariableValue>)
    | ActionDefinitionsSet(actions: map<string, ActionDefinition>)
    | FeedbackDefinitionsSet(feedbacks: map<string, FeedbackDefinition>)
    | VariableDefinitionsSet(variables: seq<VariableDefinition>)
    | PresetDefinitionsSet(presets: map<string, Preset>)
}
